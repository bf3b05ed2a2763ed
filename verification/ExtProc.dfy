/** The external-processing service (crates/evoxy-extproc/src/lib.rs): a state machine over
    the messages of one stream, with counters shared by all streams. */
module ExtProc {
  import opened Common
  import opened Adapter
  import opened Transform
  import opened Route
  import opened Filter
  import opened AsyncWrite
  import opened Recorders
  import opened Observe
  import opened Reference
  import Percent

  datatype Message =
    | RequestHeaders(headers: Headers, endOfStream: bool)
    | RequestBody(body: string)
    | RequestTrailers
    | ResponseHeaders
    | ResponseBody(upstream: string)
    | ResponseTrailers
    | NoMessage

  datatype Answer =
    | AtRequestHeaders(common: CommonResponse)
    | AtRequestBody(common: CommonResponse)
    | AtRequestTrailers
    | AtResponseHeaders(decision: Option<Resolved>)
    | AtResponseBody(shaped: Option<string>)
    | AtResponseTrailers
    | AtOnce(reply: Reply)
    | Introspection(shown: ReservedReply)

  /** What does not change while the service runs. */
  datatype Setup = Setup(f: Brain, token: Option<string>, hasSink: bool, cap: nat, opId: Record -> string)

  const Unchanged := CommonResponse(None, None)
  const PayloadTooLarge := ErrorReply(413, "payload_too_large")

  predicate OverCap(body: string, cap: nat) {
    |Percent.Utf8(body)| > cap
  }

  // ----- one message, as a function -----

  /** What one message does: the answer, the surface and stream headers after it, and the
      records it produced. */
  datatype Effects = Effects(answer: Answer, surface: Surface, headers: Headers, records: seq<Record>)

  function CountRouted(s: Surface): Surface {
    s.(routed := s.routed + 1)
  }

  function CountRejected(s: Surface): Surface {
    s.(rejected := s.rejected + 1)
  }

  /** The brain's answer in a request phase. */
  function Finalized(f: Brain, headers: Headers, body: string): Result<CommonResponse, Reply> {
    var req := RequestFrom(headers, None, body);
    Finished(NotedAll(NoNotes, HandleEffects(f, req)), req.verb, req.Path())
  }

  function WriteStep(setup: Setup, s: Surface, headers: Headers, body: string,
                     acknowledged: bool, atBody: bool): Effects
  {
    if WantsAsync(headers) then
      var w := Written(setup.f, RequestFrom(headers, None, body), setup.hasSink, acknowledged, setup.opId);
      Effects(AtOnce(w.0), if 200 <= w.0.status < 300 then CountRouted(s) else CountRejected(s), headers, w.1)
    else
      var finished := Finalized(setup.f, headers, body);
      Effects(FinalAnswer(finished, atBody), FinalCount(finished, s), headers, [])
  }

  function Step(setup: Setup, s: Surface, headers: Headers, m: Message, acknowledged: bool): Effects {
    match m
    case RequestHeaders(hs, endOfStream) =>
      (match ReservedReplied(setup.token, setup.f, s, hs)
       case Some(shown) => Effects(Introspection(shown), ReservedSurface(setup.token, s, hs), hs, [])
       case None =>
         if endOfStream then WriteStep(setup, s, hs, "", acknowledged, false)
         else Effects(AtRequestHeaders(Unchanged), s, hs, []))
    case RequestBody(body) =>
      if OverCap(body, setup.cap) then Effects(AtOnce(PayloadTooLarge), CountRejected(s), headers, [])
      else WriteStep(setup, s, headers, body, acknowledged, true)
    case ResponseHeaders => Effects(AtResponseHeaders(DecisionShown(setup.f, s, headers)), s, headers, [])
    case ResponseBody(upstream) =>
      Effects(AtResponseBody(ShapeResponse(setup.f, RequestFrom(headers, None, ""), upstream)), s, headers, [])
    case RequestTrailers => Effects(AtRequestTrailers, s, headers, [])
    case ResponseTrailers => Effects(AtResponseTrailers, s, headers, [])
    case NoMessage => Effects(AtRequestBody(Unchanged), s, headers, [])
  }

  // ----- one message, as the service processes it -----

  class StreamState {
    var headers: Headers
    const cap: nat

    constructor (cap: nat)
      ensures headers == [] && this.cap == cap
    {
      headers, this.cap := [], cap;
    }
  }

  function LogOf(sink: Sink?): seq<Record>
    reads sink
  {
    if sink == null then [] else sink.log
  }

  /** Runs the brain into a fresh recorder. */
  method RunBrain(f: Brain, headers: Headers, body: string) returns (finished: Result<CommonResponse, Reply>)
    ensures finished == Finalized(f, headers, body)
  {
    var req := RequestFrom(headers, None, body);
    var calls := new EnvoyActions();
    var _ := Handle(f, req, calls);
    assert calls.calls == HandleEffects(f, req);
    var actions := new ExtProcActions();
    actions.PerformAll(calls.calls);
    finished := actions.Finish(req.verb, req.Path());
  }

  function FinalAnswer(finished: Result<CommonResponse, Reply>, atBody: bool): Answer {
    match finished
    case Ok(common) => if atBody then AtRequestBody(common) else AtRequestHeaders(common)
    case Err(reply) => AtOnce(reply)
  }

  function FinalCount(finished: Result<CommonResponse, Reply>, s: Surface): Surface {
    if finished.Ok? then CountRouted(s) else CountRejected(s)
  }

  method Finalize(f: Brain, observe: Observe, headers: Headers, body: string, atBody: bool)
    returns (answer: Answer)
    modifies observe
    ensures answer == FinalAnswer(Finalized(f, headers, body), atBody)
    ensures observe.View() == FinalCount(Finalized(f, headers, body), old(observe.View()))
  {
    var finished := RunBrain(f, headers, body);
    if finished.Ok? {
      observe.RecordRouted();
    } else {
      observe.RecordRejected();
    }
    answer := FinalAnswer(finished, atBody);
  }

  method FinalizeAsync(setup: Setup, observe: Observe, sink: Sink?, headers: Headers, body: string, acknowledged: bool)
    returns (answer: Answer)
    requires setup.hasSink <==> sink != null
    modifies observe, sink
    ensures var w := Written(setup.f, RequestFrom(headers, None, body), setup.hasSink, acknowledged, setup.opId);
            && answer == AtOnce(w.0) && (sink != null ==> LogOf(sink) == old(LogOf(sink)) + w.1)
            && observe.View() == if 200 <= w.0.status < 300 then CountRouted(old(observe.View()))
                                 else CountRejected(old(observe.View()))
  {
    var reply := Write(setup.f, RequestFrom(headers, None, body), sink, acknowledged, setup.opId);
    if 200 <= reply.status < 300 {
      observe.RecordRouted();
    } else {
      observe.RecordRejected();
    }
    answer := AtOnce(reply);
  }

  /** The effects are what happened to the surface, the stream and the log. */
  twostate predicate Happened(e: Effects, answer: Answer, observe: Observe, sink: Sink?, new headers: Headers)
    reads observe, sink
  {
    && answer == e.answer && observe.View() == e.surface && headers == e.headers
    && if sink == null then e.records == [] else LogOf(sink) == old(LogOf(sink)) + e.records
  }

  lemma NoRecords(setup: Setup, req: Request, acknowledged: bool)
    ensures Written(setup.f, req, false, acknowledged, setup.opId).1 == []
  {
  }

  method DispatchWrite(setup: Setup, observe: Observe, sink: Sink?, headers: Headers, body: string,
                       acknowledged: bool, atBody: bool)
    returns (answer: Answer)
    requires setup.hasSink <==> sink != null
    modifies observe, sink
    ensures Happened(WriteStep(setup, old(observe.View()), headers, body, acknowledged, atBody),
                     answer, observe, sink, headers)
  {
    if WantsAsync(headers) {
      NoRecords(setup, RequestFrom(headers, None, body), acknowledged);
      answer := FinalizeAsync(setup, observe, sink, headers, body, acknowledged);
    } else {
      answer := Finalize(setup.f, observe, headers, body, atBody);
    }
  }

  method ProcessMessage(setup: Setup, observe: Observe, sink: Sink?, state: StreamState, m: Message, acknowledged: bool)
    returns (answer: Answer)
    requires setup.hasSink <==> sink != null
    requires setup.token == observe.token && setup.cap == state.cap
    modifies observe, sink, state
    ensures Happened(Step(setup, old(observe.View()), old(state.headers), m, acknowledged),
                     answer, observe, sink, state.headers)
  {
    match m {
      case RequestHeaders(hs, endOfStream) =>
        state.headers := hs;
        var reply := observe.Reply(setup.f, hs);
        if reply.Some? {
          return Introspection(reply.value);
        }
        if endOfStream {
          answer := DispatchWrite(setup, observe, sink, hs, "", acknowledged, false);
        } else {
          answer := AtRequestHeaders(Unchanged);
        }
      case RequestBody(body) =>
        if |Percent.Utf8(body)| > state.cap {
          observe.RecordRejected();
          return AtOnce(PayloadTooLarge);
        }
        answer := DispatchWrite(setup, observe, sink, state.headers, body, acknowledged, true);
      case ResponseHeaders =>
        answer := AtResponseHeaders(DecisionShown(setup.f, observe.View(), state.headers));
      case ResponseBody(upstream) =>
        answer := AtResponseBody(ShapeResponse(setup.f, RequestFrom(state.headers, None, ""), upstream));
      case RequestTrailers => answer := AtRequestTrailers;
      case ResponseTrailers => answer := AtResponseTrailers;
      case NoMessage => answer := AtRequestBody(Unchanged);
    }
  }

  // ----- one message: what always holds -----

  /** The answer ends the stream at once or belongs to the phase of the message. */
  predicate Matches(m: Message, a: Answer) {
    || a.AtOnce? || a.Introspection?
    || match m
       case RequestHeaders(_, _) => a.AtRequestHeaders?
       case RequestBody(_) => a.AtRequestBody?
       case RequestTrailers => a.AtRequestTrailers?
       case ResponseHeaders => a.AtResponseHeaders?
       case ResponseBody(_) => a.AtResponseBody?
       case ResponseTrailers => a.AtResponseTrailers?
       case NoMessage => a.AtRequestBody?
  }

  lemma AnswerMatchesPhase(setup: Setup, s: Surface, headers: Headers, m: Message, acknowledged: bool)
    ensures Matches(m, Step(setup, s, headers, m, acknowledged).answer)
  {
  }

  /** A body over the cap is refused with 413 and counted once, whatever the brain, the sink
      and the headers: neither the brain nor the sink is asked. */
  lemma OverCapRefused(setup: Setup, s: Surface, headers: Headers, body: string, acknowledged: bool,
                       other: Brain, otherSink: bool)
    requires OverCap(body, setup.cap)
    ensures Step(setup, s, headers, RequestBody(body), acknowledged)
            == Effects(AtOnce(PayloadTooLarge), CountRejected(s), headers, [])
    ensures Step(setup.(f := other, hasSink := otherSink), s, headers, RequestBody(body), acknowledged)
            == Step(setup, s, headers, RequestBody(body), acknowledged)
  {
  }

  /** The message completes a request: its headers alone, or its body. */
  predicate Completes(m: Message) {
    (m.RequestHeaders? && m.endOfStream && !Reserved(m.headers)) || m.RequestBody?
  }

  /** A message that completes a request is counted once, as routed when Envoy goes on or the
      write was accepted and as rejected otherwise; no other message moves a counter. A record is
      produced exactly for a 202 that was asked for. */
  lemma CountedOnce(setup: Setup, s: Surface, headers: Headers, m: Message, acknowledged: bool)
    ensures var e := Step(setup, s, headers, m, acknowledged);
            && e.surface.routed + e.surface.rejected == s.routed + s.rejected + (if Completes(m) then 1 else 0)
            && (Completes(m) ==> (e.surface.routed == s.routed + 1 <==> Goes(e.answer)))
            && e.surface.routed >= s.routed && e.surface.rejected >= s.rejected
            && |e.records| == if e.answer.AtOnce? && e.answer.reply.status == 202 then 1 else 0
  {
    ReservedStep(setup, s, headers, m, acknowledged);
    if m.RequestBody? {
      if !OverCap(m.body, setup.cap) { WriteCounted(setup, s, headers, m.body, acknowledged, true); }
    } else if m.RequestHeaders? && m.endOfStream {
      WriteCounted(setup, s, m.headers, "", acknowledged, false);
    }
  }

  lemma ReservedStep(setup: Setup, s: Surface, headers: Headers, m: Message, acknowledged: bool)
    ensures m.RequestHeaders? && Reserved(m.headers) ==>
              var e := Step(setup, s, headers, m, acknowledged);
              && e.answer.Introspection? && e.records == []
              && e.surface.routed == s.routed && e.surface.rejected == s.rejected
    ensures m.RequestHeaders? && !Reserved(m.headers) ==> ReservedReplied(setup.token, setup.f, s, m.headers).None?
  {
    if m.RequestHeaders? { ReservedIff(setup.token, setup.f, s, m.headers); }
  }

  lemma WriteCounted(setup: Setup, s: Surface, headers: Headers, body: string, acknowledged: bool, atBody: bool)
    ensures var e := WriteStep(setup, s, headers, body, acknowledged, atBody);
            && (if Goes(e.answer) then e.surface == CountRouted(s) else e.surface == CountRejected(s))
            && |e.records| == if e.answer.AtOnce? && e.answer.reply.status == 202 then 1 else 0
  {
    if WantsAsync(headers) {
      HonestReply(setup.f, RequestFrom(headers, None, body), setup.hasSink, acknowledged, setup.opId);
    } else {
      FinalizedErrors(setup, headers, body);
    }
  }

  lemma FinalizedErrors(setup: Setup, headers: Headers, body: string)
    ensures Finalized(setup.f, headers, body).Err? ==> Finalized(setup.f, headers, body).error.status >= 400
  {
    var req := RequestFrom(headers, None, body);
    RefusalsAreErrors(setup.f);
    NotesTrack(NoNotes, Untouched(req), req, HandleEffects(setup.f, req));
    assert Handled(setup.f, req).Replied? ==> Handled(setup.f, req).reply.status >= 400;
  }

  /** Envoy goes on with the request, or the write was accepted. */
  predicate Goes(a: Answer) {
    a.AtRequestHeaders? || a.AtRequestBody? || (a.AtOnce? && 200 <= a.reply.status < 300)
  }

  // ----- whole runs over interleaved streams -----

  datatype Event = Event(stream: nat, m: Message, acknowledged: bool)

  /** The service: the shared surface and log, and the headers each stream has buffered. */
  datatype Service = Service(surface: Surface, log: seq<Record>, streams: map<nat, Headers>)

  function Buffered(streams: map<nat, Headers>, stream: nat): Headers {
    if stream in streams then streams[stream] else []
  }

  function Happens(setup: Setup, v: Service, e: Event): Effects {
    Step(setup, v.surface, Buffered(v.streams, e.stream), e.m, e.acknowledged)
  }

  function AfterAll(setup: Setup, s: Surface, events: seq<Event>): Service {
    if events == [] then Service(s, [], map[])
    else
      var v := AfterAll(setup, s, events[..|events| - 1]);
      var last := events[|events| - 1];
      var e := Happens(setup, v, last);
      Service(e.surface, v.log + e.records, v.streams[last.stream := e.headers])
  }

  function Answers(setup: Setup, s: Surface, events: seq<Event>): (r: seq<Answer>)
    ensures |r| == |events|
  {
    if events == [] then []
    else
      var front := events[..|events| - 1];
      Answers(setup, s, front) + [Happens(setup, AfterAll(setup, s, front), events[|events| - 1]).answer]
  }

  /** The messages of one stream, in order. */
  function History(events: seq<Event>, stream: nat): seq<Message> {
    if events == [] then []
    else
      var last := events[|events| - 1];
      History(events[..|events| - 1], stream) + if last.stream == stream then [last.m] else []
  }

  /** What Envoy may send next on a stream: headers first and once, then at most one body,
      directly behind headers that announced one; a reserved request is answered and over. */
  predicate MayFollow(before: seq<Message>, m: Message) {
    match m
    case RequestHeaders(_, _) => before == []
    case RequestBody(_) =>
      |before| == 1 && before[0].RequestHeaders? && !before[0].endOfStream && !Reserved(before[0].headers)
    case _ => before != [] && before[0].RequestHeaders? && !Reserved(before[0].headers)
  }

  predicate Legal(history: seq<Message>) {
    history == [] || (Legal(history[..|history| - 1]) && MayFollow(history[..|history| - 1], history[|history| - 1]))
  }

  /** The stream carried a request that is not reserved and came through completely. */
  predicate Completed(history: seq<Message>) {
    history != [] && (Completed(history[..|history| - 1]) || Completes(history[|history| - 1]))
  }

  function Streams(events: seq<Event>): set<nat> {
    set i | 0 <= i < |events| :: events[i].stream
  }

  function CompletedStreams(events: seq<Event>): set<nat> {
    set id | id in Streams(events) && Completed(History(events, id))
  }

  /** A legal stream completes at most once. */
  lemma {:induction false} CompletesOnce(before: seq<Message>, m: Message)
    requires Legal(before) && MayFollow(before, m) && Completes(m)
    ensures !Completed(before)
  {
    if m.RequestBody? {
      assert before[..0] == [];
    }
  }

  lemma HistorySnoc(front: seq<Event>, last: Event, id: nat)
    ensures History(front + [last], id) == History(front, id) + if last.stream == id then [last.m] else []
  {
    assert (front + [last])[..|front|] == front;
  }

  lemma LegalSnoc(before: seq<Message>, m: Message)
    ensures Legal(before + [m]) <==> Legal(before) && MayFollow(before, m)
    ensures Completed(before + [m]) <==> Completed(before) || Completes(m)
  {
    assert (before + [m])[..|before|] == before;
  }

  lemma StreamsSnoc(front: seq<Event>, last: Event)
    ensures Streams(front + [last]) == Streams(front) + {last.stream}
  {
    var events := front + [last];
    assert events[|front|] == last;
    forall id | id in Streams(front) ensures id in Streams(events) {
      var i :| 0 <= i < |front| && front[i].stream == id;
      assert events[i].stream == id;
    }
  }

  lemma {:induction false} UnseenHistory(events: seq<Event>, id: nat)
    requires id !in Streams(events)
    ensures History(events, id) == []
  {
    if events != [] {
      var front, last := events[..|events| - 1], events[|events| - 1];
      assert events == front + [last];
      StreamsSnoc(front, last);
      UnseenHistory(front, id);
    }
  }

  ghost predicate AllLegal(events: seq<Event>) {
    forall id :: Legal(History(events, id))
  }

  lemma LegalPrefix(front: seq<Event>, last: Event)
    requires AllLegal(front + [last])
    ensures AllLegal(front) && MayFollow(History(front, last.stream), last.m)
  {
    forall id ensures Legal(History(front, id)) {
      HistorySnoc(front, last, id);
      if last.stream == id { LegalSnoc(History(front, id), last.m); }
      assert History(front, id) + [] == History(front, id);
    }
    HistorySnoc(front, last, last.stream);
    LegalSnoc(History(front, last.stream), last.m);
  }

  lemma CompletedSnoc(front: seq<Event>, last: Event)
    requires AllLegal(front + [last])
    ensures CompletedStreams(front + [last])
            == CompletedStreams(front) + if Completes(last.m) then {last.stream} else {}
    ensures Completes(last.m) ==> last.stream !in CompletedStreams(front)
  {
    var events := front + [last];
    LegalPrefix(front, last);
    StreamsSnoc(front, last);
    if Completes(last.m) { CompletesOnce(History(front, last.stream), last.m); }
    forall id ensures Completed(History(events, id)) <==>
                      Completed(History(front, id)) || (id == last.stream && Completes(last.m))
    {
      CompletedAt(front, last, id);
    }
    if last.stream !in Streams(front) { UnseenHistory(front, last.stream); }
  }

  lemma CompletedAt(front: seq<Event>, last: Event, id: nat)
    ensures Completed(History(front + [last], id)) <==>
            Completed(History(front, id)) || (id == last.stream && Completes(last.m))
  {
    HistorySnoc(front, last, id);
    LegalSnoc(History(front, id), last.m);
    assert History(front, id) + [] == History(front, id);
  }

  /** For every interleaving of legal streams, routed plus rejected is the number of streams
      whose request, not a reserved one, came through completely: each is counted once. */
  lemma {:induction false} EachRequestCountedOnce(setup: Setup, s: Surface, events: seq<Event>)
    requires AllLegal(events)
    ensures var v := AfterAll(setup, s, events);
            v.surface.routed + v.surface.rejected == s.routed + s.rejected + |CompletedStreams(events)|
  {
    if events != [] {
      var front, last := events[..|events| - 1], events[|events| - 1];
      assert events == front + [last];
      LegalPrefix(front, last);
      EachRequestCountedOnce(setup, s, front);
      CompletedSnoc(front, last);
      var v := AfterAll(setup, s, front);
      CountedOnce(setup, v.surface, Buffered(v.streams, last.stream), last.m, last.acknowledged);
    }
  }

  /** The counters never go down, whatever the messages: a later metrics snapshot is never
      below an earlier one. */
  lemma {:induction false} CountersGrow(setup: Setup, s: Surface, events: seq<Event>, n: nat)
    requires n <= |events|
    ensures var (early, late) := (AfterAll(setup, s, events[..n]), AfterAll(setup, s, events));
            early.surface.routed <= late.surface.routed && early.surface.rejected <= late.surface.rejected
    decreases |events| - n, |events|
  {
    if n < |events| {
      var front, last := events[..|events| - 1], events[|events| - 1];
      CountersGrow(setup, s, front, n);
      assert front[..n] == events[..n];
      var v := AfterAll(setup, s, front);
      CountedOnce(setup, v.surface, Buffered(v.streams, last.stream), last.m, last.acknowledged);
    } else {
      assert events[..n] == events;
    }
  }

  /** The answer to one message of a run: of its phase or final, and 413 for a body over the
      cap. */
  predicate AnsweredRight(setup: Setup, m: Message, a: Answer) {
    Matches(m, a) && (m.RequestBody? && OverCap(m.body, setup.cap) ==> a == AtOnce(ErrorReply(413, "payload_too_large")))
  }

  lemma StepAnsweredRight(setup: Setup, s: Surface, headers: Headers, m: Message, acknowledged: bool)
    ensures AnsweredRight(setup, m, Step(setup, s, headers, m, acknowledged).answer)
  {
    AnswerMatchesPhase(setup, s, headers, m, acknowledged);
    if m.RequestBody? && OverCap(m.body, setup.cap) {
      OverCapRefused(setup, s, headers, m.body, acknowledged, setup.f, setup.hasSink);
    }
  }

  /** The i-th answer is the step of the i-th message on what the earlier ones left. */
  lemma {:induction false} AnswerAt(setup: Setup, s: Surface, events: seq<Event>, i: nat)
    requires i < |events|
    ensures Answers(setup, s, events)[i] == Happens(setup, AfterAll(setup, s, events[..i]), events[i]).answer
    decreases |events|
  {
    if i < |events| - 1 {
      var front := events[..|events| - 1];
      AnswerAt(setup, s, front, i);
      assert front[..i] == events[..i] && front[i] == events[i];
    }
  }

  /** Over every run every reply ends its stream or matches its message's phase, and every body
      over the cap is answered 413. */
  lemma EveryAnswerMatches(setup: Setup, s: Surface, events: seq<Event>)
    ensures forall i :: 0 <= i < |events| ==> AnsweredRight(setup, events[i].m, Answers(setup, s, events)[i])
  {
    forall i | 0 <= i < |events| ensures AnsweredRight(setup, events[i].m, Answers(setup, s, events)[i]) {
      AnswerAt(setup, s, events, i);
      var v := AfterAll(setup, s, events[..i]);
      StepAnsweredRight(setup, v.surface, Buffered(v.streams, events[i].stream), events[i].m, events[i].acknowledged);
    }
  }

  function AcceptedCount(answers: seq<Answer>): nat {
    if answers == [] then 0
    else
      var last := answers[|answers| - 1];
      AcceptedCount(answers[..|answers| - 1]) + if last.AtOnce? && last.reply.status == 202 then 1 else 0
  }

  /** Over every run, legal or not, the log holds one record for each 202 the service gave. */
  lemma {:induction false} LogMatchesAccepted(setup: Setup, s: Surface, events: seq<Event>)
    ensures |AfterAll(setup, s, events).log| == AcceptedCount(Answers(setup, s, events))
  {
    if events != [] {
      var front, last := events[..|events| - 1], events[|events| - 1];
      var answers := Answers(setup, s, events);
      LogMatchesAccepted(setup, s, front);
      assert answers[..|answers| - 1] == Answers(setup, s, front);
      var v := AfterAll(setup, s, front);
      CountedOnce(setup, v.surface, Buffered(v.streams, last.stream), last.m, last.acknowledged);
    }
  }

  // ----- streams do not disturb each other -----

  /** The headers a stream has buffered are its own: the last it sent. */
  function OwnHeaders(history: seq<Message>): Headers {
    if history == [] then []
    else
      var last := history[|history| - 1];
      if last.RequestHeaders? then last.headers else OwnHeaders(history[..|history| - 1])
  }

  lemma {:induction false} BufferedIsOwn(setup: Setup, s: Surface, events: seq<Event>, id: nat)
    ensures Buffered(AfterAll(setup, s, events).streams, id) == OwnHeaders(History(events, id))
  {
    if events != [] {
      var front, last := events[..|events| - 1], events[|events| - 1];
      BufferedIsOwn(setup, s, front, id);
      var before := History(front, id);
      if last.stream == id {
        assert (before + [last.m])[..|before|] == before;
        StepHeaders(setup, AfterAll(setup, s, front).surface, Buffered(AfterAll(setup, s, front).streams, id),
                    last.m, last.acknowledged);
      } else {
        assert before + [] == before;
      }
    }
  }

  lemma StepHeaders(setup: Setup, s: Surface, headers: Headers, m: Message, acknowledged: bool)
    ensures Step(setup, s, headers, m, acknowledged).headers == if m.RequestHeaders? then m.headers else headers
  {
  }

  /** The answer to a message is a function of the stream's own messages: other streams can only
      change what introspection shows and whether the decision header is switched on. */
  lemma AnswerIsOwn(setup: Setup, s: Surface, events: seq<Event>, e: Event, alone: Surface)
    requires !e.m.ResponseHeaders? && !(e.m.RequestHeaders? && Reserved(e.m.headers))
    ensures Happens(setup, AfterAll(setup, s, events), e).answer ==
            Step(setup, alone, OwnHeaders(History(events, e.stream)), e.m, e.acknowledged).answer
  {
    BufferedIsOwn(setup, s, events, e.stream);
    SurfaceUnseen(setup, AfterAll(setup, s, events).surface, alone, OwnHeaders(History(events, e.stream)),
                  e.m, e.acknowledged);
  }

  lemma SurfaceUnseen(setup: Setup, s: Surface, alone: Surface, headers: Headers, m: Message, acknowledged: bool)
    requires !m.ResponseHeaders? && !(m.RequestHeaders? && Reserved(m.headers))
    ensures Step(setup, s, headers, m, acknowledged).answer == Step(setup, alone, headers, m, acknowledged).answer
  {
    ReservedStep(setup, s, headers, m, acknowledged);
    ReservedStep(setup, alone, headers, m, acknowledged);
  }

  // ----- what Envoy forwards in the end -----

  /** A synchronous request within the cap: the answer to its completing message makes Envoy
      forward exactly the outcome of handling the request, or reply it, except exactly when all
      that handling does to the client's path is to take its query off. */
  lemma AnswerCarriesIff(setup: Setup, headers: Headers, body: string, h: HeaderMap)
    requires var req := RequestFrom(headers, None, body);
             LineInHeaders(h, req.verb, req.pathAndQuery) && Disjoint(NotedAll(NoNotes, HandleEffects(setup.f, req)))
    ensures var req := RequestFrom(headers, None, body);
            Carries(ExtProcSent(h, body, Finalized(setup.f, headers, body)), Handled(setup.f, req), h)
            <==> !QueryOnly(Handled(setup.f, req), req)
  {
    var req := RequestFrom(headers, None, body);
    ExtProcSendsIff(h, req, HandleEffects(setup.f, req));
  }

  /** The response phase has no body to show the brain, and needs none: with a router that does
      not look at bodies the answer is shaped as for the whole request. */
  lemma ShapingNeedsNoBody(setup: Setup, s: Surface, headers: Headers, body: string, upstream: string, acknowledged: bool)
    requires BodyIndependent(setup.f.router)
    ensures Step(setup, s, headers, ResponseBody(upstream), acknowledged).answer
            == AtResponseBody(ShapeResponse(setup.f, RequestFrom(headers, None, body), upstream))
  {
    var empty, full := RequestFrom(headers, None, ""), RequestFrom(headers, None, body);
    assert full == empty.(body := body);
    var ctx := FromFilter(empty);
    if ctx.Some? { ShapedAlike(setup.f.router, ctx.value, body, upstream); }
  }

  lemma ShapedAlike(router: Router, ctx: Ctx, body: string, upstream: string)
    requires BodyIndependent(router)
    ensures ShapeReadResponse(router, ctx.(body := body), upstream) == ShapeReadResponse(router, ctx, upstream)
  {
    assert router.resolve(ctx.(body := body)) == router.resolve(ctx);
  }

  // ----- the module's requests -----

  /** The module assembles the same request without an identity. */
  function ModuleRequest(headers: Headers, body: string): Request {
    RequestFrom(headers, None, body).(identity := NoIdentity)
  }

  ghost predicate IgnoresPrincipal(router: Router) {
    forall ctx: Ctx, who: string :: router.resolve(ctx.(principal := who)) == router.resolve(ctx)
  }

  lemma PrincipalUnused(router: Router, ctx: Ctx, who: string)
    requires IgnoresPrincipal(router)
    ensures Prepare(router, ctx.(principal := who)) == Prepare(router, ctx)
  {
    assert router.resolve(ctx.(principal := who)) == router.resolve(ctx);
  }

  /** The request is a write, as the brain sees it. */
  predicate WriteSeen(f: Brain, req: Request) {
    var ctx := FromFilter(Seen(f, req));
    ctx.Some? && ctx.value.endpoint.IsWrite()
  }

  lemma NeverForbidden(router: Router, ctx: Ctx)
    ensures Prepare(router, ctx) != Immediate(MtlsRequired)
  {
  }

  /** Under a tenancy that ignores the principal, the module and ext_proc handle a request
      differently exactly when certificates are required and it is a write of a client that
      presented one: ext_proc serves it and the module refuses it. */
  lemma ModuleDiffersIff(f: Brain, headers: Headers, body: string)
    requires IgnoresPrincipal(f.router)
    ensures var req := RequestFrom(headers, None, body);
            Handled(f, ModuleRequest(headers, body)) != Handled(f, req)
            <==> f.requireMtls && WriteSeen(f, req) && req.identity.presented
  {
    ModuleRefuses(f, headers, body);
    ModuleAgrees(f, headers, body);
  }

  lemma SeenBare(f: Brain, req: Request)
    ensures var bare := req.(identity := NoIdentity);
            && Seen(f, bare) == Seen(f, req).(identity := NoIdentity)
            && Seen(f, req).identity == req.identity
            && (FromFilter(Seen(f, req)).None? <==> FromFilter(Seen(f, bare)).None?)
            && (FromFilter(Seen(f, req)).Some? ==>
                  FromFilter(Seen(f, bare)).value == FromFilter(Seen(f, req)).value.(principal := ANONYMOUS))
  {
  }

  /** With certificates required the module refuses every write. */
  lemma ModuleRefuses(f: Brain, headers: Headers, body: string)
    ensures var req := RequestFrom(headers, None, body);
            && (f.requireMtls && WriteSeen(f, req) ==> Handled(f, ModuleRequest(headers, body)) == Replied(MtlsRequired))
            && (req.identity.presented ==> Handled(f, req) != Replied(MtlsRequired))
  {
    var req := RequestFrom(headers, None, body);
    SeenBare(f, req);
    HandledIs(f, req);
    HandledIs(f, ModuleRequest(headers, body));
    var ctx := FromFilter(Seen(f, req));
    if ctx.Some? { NeverForbidden(f.router, ctx.value); }
  }

  lemma ModuleAgrees(f: Brain, headers: Headers, body: string)
    requires IgnoresPrincipal(f.router)
    ensures var req := RequestFrom(headers, None, body);
            !(f.requireMtls && WriteSeen(f, req) && req.identity.presented) ==>
              Handled(f, ModuleRequest(headers, body)) == Handled(f, req)
  {
    var req := RequestFrom(headers, None, body);
    SeenBare(f, req);
    HandledIs(f, req);
    HandledIs(f, ModuleRequest(headers, body));
    var ctx := FromFilter(Seen(f, req));
    if ctx.Some? { PrincipalUnused(f.router, ctx.value, ANONYMOUS); }
  }

  /** Under a tenancy keyed by the principal, every client of the module is in the one partition
      of the anonymous principal, whatever certificate Envoy vouches for. */
  lemma ModuleClientsShare(tenancy: Tenancy, headers: Headers, body: string)
    requires tenancy.fromPrincipal && FromFilter(ModuleRequest(headers, body)).Some?
    ensures tenancy.ResolvePartition(FromFilter(ModuleRequest(headers, body)).value) == Ok(ANONYMOUS)
  {
  }

  /** The principal is the client's own exactly when it presents an identity with a name; a
      tenancy keyed by the principal never fails to resolve, it falls back to the anonymous
      partition. */
  lemma PrincipalNeverUnresolved(tenancy: Tenancy, req: Request)
    requires tenancy.fromPrincipal && FromFilter(req).Some?
    ensures tenancy.ResolvePartition(FromFilter(req).value) ==
            Ok(if req.identity.presented && req.identity.StableId() != "" then req.identity.StableId() else ANONYMOUS)
  {
  }

  /** So a tenancy keyed by the principal resolves a request alike on both backends exactly when
      ext_proc's client has no name, or is named like the anonymous one. */
  lemma PrincipalPartitionIff(tenancy: Tenancy, headers: Headers, body: string)
    requires tenancy.fromPrincipal && FromFilter(RequestFrom(headers, None, body)).Some?
    ensures var req := RequestFrom(headers, None, body);
            tenancy.ResolvePartition(FromFilter(ModuleRequest(headers, body)).value)
            == tenancy.ResolvePartition(FromFilter(req).value)
            <==> !req.identity.presented || req.identity.StableId() in {"", ANONYMOUS}
  {
  }

  // ----- the reference tenancy edits no headers -----

  lemma NoEdits(n: Notes)
    requires n.sets == [] && n.removes == []
    ensures Disjoint(n)
  {
  }

  lemma ReferenceEditsNothing(tenancy: Tenancy, ctx: Ctx)
    ensures Prepare(tenancy.AsRouter(), ctx).Upstream? ==> Prepare(tenancy.AsRouter(), ctx).f.headerOps == []
  {
  }

  /** Under the reference tenancy the recorders' header names never clash: it edits none. */
  lemma ReferenceDisjoint(tenancy: Tenancy, f: Brain, req: Request)
    requires f.router == tenancy.AsRouter()
    ensures Disjoint(NotedAll(NoNotes, HandleEffects(f, req)))
  {
    var ctx := FromFilter(Seen(f, req));
    HandledIs(f, req);
    NotesTrack(NoNotes, Untouched(req), req, HandleEffects(f, req));
    if Handled(f, req).Replied? {
      ReplyAlone(f, req);
    } else {
      ReferenceEditsNothing(tenancy, ctx.value);
      assert Handled(f, req).edits == [];
    }
    NoEdits(NotedAll(NoNotes, HandleEffects(f, req)));
  }

  lemma ReplyAlone(f: Brain, req: Request)
    requires Handled(f, req).Replied?
    ensures NotedAll(NoNotes, HandleEffects(f, req)) == NoNotes.(immediate := Some(Handled(f, req).reply))
  {
    HandledIs(f, req);
    var r := Handled(f, req).reply;
    assert HandleEffects(f, req) == ReplyEffects(r);
    assert [LocalReply(r.status, r.body)][1..] == [];
    assert NotedAll(NoNotes, ReplyEffects(r)) == Noted(NoNotes, LocalReply(r.status, r.body));
  }

  // ----- a request whose query ext_proc keeps -----

  /** With a dedicated cluster for each tenant, the default, every search with a query string is
      such a request: handling takes the query off and keeps the rest of the path. */
  lemma DefaultSearchKeepsQuery(tenancy: Tenancy, f: Brain, req: Request, index: string, query: string)
    requires tenancy.isolation == DedicatedCluster && f.router == tenancy.AsRouter()
    requires f.pathHeader == None && index !in f.passthrough && PlainIndex(index)
    requires req.verb == "POST" && req.pathAndQuery == "/" + index + "/" + "_search" + (['?'] + query)
    requires FromFilter(req).Some? ==> tenancy.ResolvePartition(FromFilter(req).value).Ok?
    ensures QueryOnly(Handled(f, req), req)
  {
    var path := "/" + index + "/" + "_search";
    SearchPath(index, query);
    HandledIs(f, req);
    DedicatedSearch(tenancy, FromFilter(req).value);
    assert req.pathAndQuery[|path|] == '?';
  }

  lemma SearchPath(index: string, query: string)
    requires PlainIndex(index)
    ensures var path := "/" + index + "/" + "_search";
            && PathOf(path + (['?'] + query)) == path
            && Classify(POST, path) == Classified(index, Endpoint.Search, None)
  {
    var path := "/" + index + "/" + "_search";
    assert Free("_search", '?') && Free(path, '?');
    SplitQuery(path, query);
    Segments2(index, "_search");
    SearchSegments(index);
  }

  lemma DedicatedSearch(tenancy: Tenancy, ctx: Ctx)
    requires tenancy.isolation == DedicatedCluster && ctx.endpoint == Endpoint.Search
    requires tenancy.ResolvePartition(ctx).Ok?
    ensures var forward := Prepare(tenancy.AsRouter(), ctx);
            forward.Upstream? && forward.f.path == "/" + ctx.logicalIndex + "/" + "_search"
  {
  }

  lemma SearchSegments(index: string)
    requires !IsAdminRoot(index)
    ensures ClassifySegments(POST, [index, "_search"]) == Classified(index, Endpoint.Search, None)
  {
    assert "_search" != "scroll";
  }
}
