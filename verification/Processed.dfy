/** What a message that completes a request comes to: what Envoy sends, or replies, and what is
    in the log, said of the request the stream carried and of nothing else. */
module Processed {
  import opened Common
  import opened Adapter
  import opened Route
  import opened Filter
  import opened AsyncWrite
  import opened Recorders
  import opened Observe
  import opened ExtProc
  import opened Reference
  import opened Configured
  import Percent

  /** The request a message completes: the headers of its stream, and the body if it has one. */
  function Carried(headers: Headers, m: Message): Request
    requires Completes(m)
  {
    if m.RequestBody? then RequestFrom(headers, None, m.body) else RequestFrom(m.headers, None, "")
  }

  /** A completing message that is not refused for its size. */
  predicate Admitted(setup: Setup, m: Message) {
    Completes(m) && (m.RequestBody? ==> |Percent.Utf8(m.body)| <= setup.cap)
  }

  /** What Envoy makes of an answer in a request phase, on a request with these headers and body. */
  function EnvoySends(h: HeaderMap, body: string, a: Answer): Option<Sent> {
    match a
    case AtRequestHeaders(common) => Some(ExtProcSent(h, body, Ok(common)))
    case AtRequestBody(common) => Some(ExtProcSent(h, body, Ok(common)))
    case AtOnce(reply) => Some(Answered(reply))
    case _ => None
  }

  /** The answer carries what handling decides of the request, exactly unless all that handling
      does to the client's path is to take its query off. */
  ghost predicate SendsHandled(f: Brain, req: Request, a: Answer, h: HeaderMap) {
    && EnvoySends(h, req.body, a).Some?
    && (Carries(EnvoySends(h, req.body, a).value, Handled(f, req), h) <==> !QueryOnly(Handled(f, req), req))
  }

  /** A record of the outcome: its path, and its body unless the request bypasses tenancy. */
  function RecordFor(f: Brain, req: Request): Record
    requires Handled(f, req).Forwarded?
  {
    Record(Handled(f, req).path, if Passes(f, req) then "" else Handled(f, req).body)
  }

  /** What an asynchronous request is answered. */
  function AsyncReply(setup: Setup, req: Request, acknowledged: bool): Reply {
    if !IsWrite(setup.f, req) then ErrorReply(400, "async_write_read_unsupported")
    else if !setup.hasSink then ErrorReply(503, "async_write_unavailable")
    else
      match Handled(setup.f, req)
      case Replied(reply) => reply
      case Forwarded(_, _, _, _, _, _) =>
        if !acknowledged then ErrorReply(503, "fanout_unavailable")
        else Reply(202, "{\"status\":\"accepted\",\"op_id\":\"" + setup.opId(RecordFor(setup.f, req)) + "\"}")
  }

  /** A 202 has left the record of what handling forwards, every other reply none. */
  ghost predicate AnswersAsync(setup: Setup, req: Request, acknowledged: bool, a: Answer, records: seq<Record>) {
    && a == AtOnce(AsyncReply(setup, req, acknowledged))
    && (a.reply.status == 202 <==>
        IsWrite(setup.f, req) && setup.hasSink && acknowledged && Handled(setup.f, req).Forwarded?)
    && records == if a.reply.status == 202 then [RecordFor(setup.f, req)] else []
  }

  /** The answer to the request and the records it leaves, whichever way it was asked for. */
  ghost predicate AnswersRequest(setup: Setup, req: Request, acknowledged: bool, a: Answer, records: seq<Record>,
                                 h: HeaderMap)
  {
    if WantsAsync(req.headers) then AnswersAsync(setup, req, acknowledged, a, records)
    else SendsHandled(setup.f, req, a, h) && records == []
  }

  // ----- one message -----

  lemma SyncStep(setup: Setup, s: Surface, headers: Headers, m: Message, acknowledged: bool)
    requires Admitted(setup, m) && !WantsAsync(Carried(headers, m).headers)
    ensures var req := Carried(headers, m);
            var e := Step(setup, s, headers, m, acknowledged);
            && e.records == []
            && e.answer == FinalAnswer(Finished(NotedAll(NoNotes, HandleEffects(setup.f, req)), req.verb, req.Path()),
                                       m.RequestBody?)
  {
    ReservedStep(setup, s, headers, m, acknowledged);
  }

  lemma StepSends(setup: Setup, s: Surface, headers: Headers, m: Message, acknowledged: bool, h: HeaderMap)
    requires Admitted(setup, m) && !WantsAsync(Carried(headers, m).headers)
    requires var req := Carried(headers, m);
             LineInHeaders(h, req.verb, req.pathAndQuery) && Disjoint(NotedAll(NoNotes, HandleEffects(setup.f, req)))
    ensures SendsHandled(setup.f, Carried(headers, m), Step(setup, s, headers, m, acknowledged).answer, h)
  {
    var req := Carried(headers, m);
    SyncStep(setup, s, headers, m, acknowledged);
    ExtProcSendsIff(h, req, HandleEffects(setup.f, req));
  }

  lemma AsyncStep(setup: Setup, s: Surface, headers: Headers, m: Message, acknowledged: bool)
    requires Admitted(setup, m) && WantsAsync(Carried(headers, m).headers)
    ensures var w := Written(setup.f, Carried(headers, m), setup.hasSink, acknowledged, setup.opId);
            var e := Step(setup, s, headers, m, acknowledged);
            e.answer == AtOnce(w.0) && e.records == w.1
  {
    ReservedStep(setup, s, headers, m, acknowledged);
  }

  lemma RecordText(f: Brain, req: Request)
    requires Handled(f, req).Forwarded?
    ensures var c := CaptureOf(f, req); c.immediate == None && Record(c.path, c.body) == RecordFor(f, req)
  {
    CaptureHandled(f, req);
    CaptureBody(Capture(req.pathAndQuery, "", None), Untouched(req), HandleEffects(f, req));
    BodySetUnlessPassed(f, req);
  }

  lemma RefusedAlike(f: Brain, req: Request)
    requires Handled(f, req).Replied?
    ensures CaptureOf(f, req).immediate == Some(Handled(f, req).reply) && Handled(f, req).reply.status >= 400
  {
    CaptureHandled(f, req);
    RefusalsAreErrors(f);
  }

  lemma AcceptedText(id: string)
    ensures Accepted(id) == Reply(202, "{\"status\":\"accepted\",\"op_id\":\"" + id + "\"}")
  {
  }

  lemma WrittenIs(setup: Setup, req: Request, acknowledged: bool)
    ensures var w := Written(setup.f, req, setup.hasSink, acknowledged, setup.opId);
            w.0 == AsyncReply(setup, req, acknowledged)
    ensures var w := Written(setup.f, req, setup.hasSink, acknowledged, setup.opId);
            w.1 == if w.0.status == 202 && Handled(setup.f, req).Forwarded? then [RecordFor(setup.f, req)] else []
  {
    if Handled(setup.f, req).Forwarded? {
      RecordText(setup.f, req);
      AcceptedText(setup.opId(RecordFor(setup.f, req)));
    } else {
      RefusedAlike(setup.f, req);
    }
  }

  lemma AsyncReplyIs(setup: Setup, req: Request, acknowledged: bool)
    ensures AsyncReply(setup, req, acknowledged).status == 202 <==>
            IsWrite(setup.f, req) && setup.hasSink && acknowledged && Handled(setup.f, req).Forwarded?
  {
    if Handled(setup.f, req).Replied? { RefusedAlike(setup.f, req); }
  }

  lemma AsyncAnswers(setup: Setup, req: Request, acknowledged: bool)
    ensures var w := Written(setup.f, req, setup.hasSink, acknowledged, setup.opId);
            AnswersAsync(setup, req, acknowledged, AtOnce(w.0), w.1)
  {
    WrittenIs(setup, req, acknowledged);
    AsyncReplyIs(setup, req, acknowledged);
  }

  /** The answer to a message that completes a request, and the records it leaves, are those of
      the request: synchronously what handling decides is sent or replied, asynchronously the
      record of what handling forwards is in the log with a 202. */
  lemma StepAnswers(setup: Setup, s: Surface, headers: Headers, m: Message, acknowledged: bool, h: HeaderMap)
    requires Admitted(setup, m)
    requires var req := Carried(headers, m);
             LineInHeaders(h, req.verb, req.pathAndQuery) && Disjoint(NotedAll(NoNotes, HandleEffects(setup.f, req)))
    ensures var e := Step(setup, s, headers, m, acknowledged);
            AnswersRequest(setup, Carried(headers, m), acknowledged, e.answer, e.records, h)
  {
    if WantsAsync(Carried(headers, m).headers) {
      AsyncStep(setup, s, headers, m, acknowledged);
      AsyncAnswers(setup, Carried(headers, m), acknowledged);
    } else {
      SyncStep(setup, s, headers, m, acknowledged);
      StepSends(setup, s, headers, m, acknowledged, h);
    }
  }

  // ----- where Envoy sends it -----

  /** The request Envoy sends names this cluster in the header its route reads. */
  predicate NamesCluster(sent: Sent, cluster: string) {
    sent.Sent? && At(sent.headers, "x-evoxy-cluster") == Some([cluster])
  }

  lemma CarriedCluster(sent: Sent, o: Outcome, h: HeaderMap, cluster: string)
    requires Carries(sent, o, h) && o.Forwarded? && o.cluster == Some(cluster)
    ensures NamesCluster(sent, cluster)
  {
  }

  /** From configuration to wire: the request Envoy sends for a tenant names the cluster configured
      for that tenant, or the default one. */
  lemma SentToConfigured(setup: Setup, tenancy: Tenancy, s: Surface, headers: Headers, m: Message,
                         acknowledged: bool, h: HeaderMap, ctx: Ctx, t: string, cluster: string)
    requires setup.f.router == tenancy.AsRouter() && Admitted(setup, m)
    requires var req := Carried(headers, m);
             && !WantsAsync(req.headers) && LineInHeaders(h, req.verb, req.pathAndQuery)
             && FromFilter(Filter.Seen(setup.f, req)) == Some(ctx) && !Passes(setup.f, req)
             && Handled(setup.f, req).Forwarded? && !QueryOnly(Handled(setup.f, req), req)
    requires tenancy.ResolvePartition(ctx) == Ok(t) && Chosen(tenancy.clusterBy, tenancy.cluster, t, cluster)
    ensures var sent := EnvoySends(h, Carried(headers, m).body, Step(setup, s, headers, m, acknowledged).answer);
            sent.Some? && NamesCluster(sent.value, cluster)
  {
    var req := Carried(headers, m);
    ReferenceDisjoint(tenancy, setup.f, req);
    StepSends(setup, s, headers, m, acknowledged, h);
    HandledWhereConfigured(tenancy, setup.f, req, ctx, t,
                           if t in tenancy.endpointBy then tenancy.endpointBy[t] else tenancy.endpoint);
    CarriedCluster(EnvoySends(h, req.body, Step(setup, s, headers, m, acknowledged).answer).value,
                   Handled(setup.f, req), h, cluster);
  }

  // ----- whole runs -----

  /** The request the i-th event completes, by the messages of its own stream. */
  function CarriedAt(events: seq<Event>, i: nat): Request
    requires i < |events| && Completes(events[i].m)
  {
    Carried(OwnHeaders(History(events[..i], events[i].stream)), events[i].m)
  }

  /** Over every run of interleaved streams, every message that completes a request within the cap
      is answered for that request. */
  lemma EveryRequestAnswered(setup: Setup, s: Surface, events: seq<Event>, i: nat, h: HeaderMap)
    requires i < |events| && Admitted(setup, events[i].m)
    requires var req := CarriedAt(events, i);
             LineInHeaders(h, req.verb, req.pathAndQuery) && Disjoint(NotedAll(NoNotes, HandleEffects(setup.f, req)))
    ensures AnswersRequest(setup, CarriedAt(events, i), events[i].acknowledged, Answers(setup, s, events)[i],
                           Happens(setup, AfterAll(setup, s, events[..i]), events[i]).records, h)
  {
    var v := AfterAll(setup, s, events[..i]);
    AnswerAt(setup, s, events, i);
    BufferedIsOwn(setup, s, events[..i], events[i].stream);
    StepAnswers(setup, v.surface, Buffered(v.streams, events[i].stream), events[i].m, events[i].acknowledged, h);
  }

  /** The record the i-th event leaves: that of its request, if it was answered 202. */
  function RecordsAt(setup: Setup, s: Surface, events: seq<Event>, i: nat): seq<Record>
    requires i < |events|
  {
    var a := Answers(setup, s, events)[i];
    if a.AtOnce? && a.reply.status == 202 && Completes(events[i].m) && Handled(setup.f, CarriedAt(events, i)).Forwarded?
    then [RecordFor(setup.f, CarriedAt(events, i))] else []
  }

  function RecordsUpTo(setup: Setup, s: Surface, events: seq<Event>, n: nat): seq<Record>
    requires n <= |events|
  {
    if n == 0 then [] else RecordsUpTo(setup, s, events, n - 1) + RecordsAt(setup, s, events, n - 1)
  }

  lemma StepRecords(setup: Setup, s: Surface, headers: Headers, m: Message, acknowledged: bool)
    ensures var e := Step(setup, s, headers, m, acknowledged);
            e.records ==
            if e.answer.AtOnce? && e.answer.reply.status == 202 && Completes(m)
               && Handled(setup.f, Carried(headers, m)).Forwarded?
            then [RecordFor(setup.f, Carried(headers, m))] else []
  {
    CountedOnce(setup, s, headers, m, acknowledged);
    if Admitted(setup, m) {
      if WantsAsync(Carried(headers, m).headers) {
        AsyncStep(setup, s, headers, m, acknowledged);
        WrittenIs(setup, Carried(headers, m), acknowledged);
      } else {
        SyncStep(setup, s, headers, m, acknowledged);
      }
    } else {
      NotAdmitted(setup, s, headers, m, acknowledged);
    }
  }

  lemma NotAdmitted(setup: Setup, s: Surface, headers: Headers, m: Message, acknowledged: bool)
    requires !Admitted(setup, m)
    ensures var e := Step(setup, s, headers, m, acknowledged);
            e.records == [] && !(e.answer.AtOnce? && e.answer.reply.status == 202)
  {
    ReservedStep(setup, s, headers, m, acknowledged);
  }

  lemma HappensRecords(setup: Setup, s: Surface, events: seq<Event>, i: nat)
    requires i < |events|
    ensures Happens(setup, AfterAll(setup, s, events[..i]), events[i]).records == RecordsAt(setup, s, events, i)
  {
    var v := AfterAll(setup, s, events[..i]);
    AnswerAt(setup, s, events, i);
    BufferedIsOwn(setup, s, events[..i], events[i].stream);
    StepRecords(setup, v.surface, Buffered(v.streams, events[i].stream), events[i].m, events[i].acknowledged);
  }

  lemma LogNext(setup: Setup, s: Surface, events: seq<Event>, i: nat)
    requires i < |events|
    ensures AfterAll(setup, s, events[..i + 1]).log ==
            AfterAll(setup, s, events[..i]).log + Happens(setup, AfterAll(setup, s, events[..i]), events[i]).records
  {
    var front := events[..i + 1];
    assert front[..|front| - 1] == events[..i] && front[|front| - 1] == events[i];
  }

  lemma LogStep(setup: Setup, s: Surface, events: seq<Event>, i: nat)
    requires i < |events| && AfterAll(setup, s, events[..i]).log == RecordsUpTo(setup, s, events, i)
    ensures AfterAll(setup, s, events[..i + 1]).log == RecordsUpTo(setup, s, events, i + 1)
  {
    LogNext(setup, s, events, i);
    HappensRecords(setup, s, events, i);
  }

  /** Over every run the log is, in order, the records of the requests that were answered 202. */
  lemma {:induction false} LogIsAccepted(setup: Setup, s: Surface, events: seq<Event>, n: nat)
    requires n <= |events|
    ensures AfterAll(setup, s, events[..n]).log == RecordsUpTo(setup, s, events, n)
  {
    if n > 0 {
      LogIsAccepted(setup, s, events, n - 1);
      LogStep(setup, s, events, n - 1);
    }
  }
}
