/** The reserved paths spelled out, end to end: which header lists are answered by the service
    itself, with what, and what they change. */
module Introspected {
  import opened Common
  import opened Adapter
  import opened Transform
  import opened Route
  import opened Filter
  import Recorders
  import opened Observe
  import opened ExtProc
  import opened Processed

  /** The request line of a header list: its first `:path`, in just this spelling. */
  predicate LineIs(headers: Headers, i: nat, path: string, query: Option<string>) {
    && i < |headers| && headers[i].0 == ":path" && (forall j :: 0 <= j < i ==> headers[j].0 != ":path")
    && Free(path, '?') && headers[i].1 == path + QueryText(query)
  }

  lemma {:induction false} ExactAt(headers: Headers, name: string, i: nat)
    requires i < |headers| && headers[i].0 == name && forall j :: 0 <= j < i ==> headers[j].0 != name
    ensures ExactHeader(headers, name) == Some(headers[i].1)
  {
    if i > 0 { ExactAt(headers[1..], name, i - 1); }
  }

  lemma LineRead(headers: Headers, i: nat, path: string, query: Option<string>)
    requires LineIs(headers, i, path, query)
    ensures ReservedPath(headers) == path && RawQuery(headers) == query
  {
    ExactAt(headers, ":path", i);
    SplitQueryText(path, query);
  }

  // ----- which paths -----

  lemma MetricsPlace()
    ensures PlaceOf("/_evoxy/metrics") == Metrics
  {
    assert "/_evoxy/metrics"[..|RESERVED_PREFIX|] == RESERVED_PREFIX;
  }

  lemma AdminPlace()
    ensures PlaceOf("/_evoxy/admin/directives") == AdminPlane
  {
    AdminPathIsReserved();
  }

  lemma ExplainPlace(target: string)
    requires target != "" && target[0] == '/'
    ensures PlaceOf("/_evoxy/explain" + target) == ExplainOf(target)
  {
    var path := "/_evoxy/explain" + target;
    assert path[..|RESERVED_PREFIX|] == RESERVED_PREFIX;
    assert path[8] == 'e' && METRICS_PATH[8] == 'm' && ADMIN_PATH[8] == 'a';
    assert path[..|EXPLAIN_PREFIX|] == EXPLAIN_PREFIX && path[|EXPLAIN_PREFIX|..] == target;
  }

  /** Every other path is the data plane's. */
  lemma PlaceIff(path: string)
    ensures PlaceOf(path) != DataPlane <==>
            path == "/_evoxy/metrics" || path == "/_evoxy/admin/directives"
            || ("/_evoxy/explain/" <= path)
  {
    MetricsPlace();
    AdminPlace();
    if EXPLAIN_PREFIX <= path && |path| > |EXPLAIN_PREFIX| && path[|EXPLAIN_PREFIX|] == '/' {
      assert path[..|EXPLAIN_PREFIX| + 1] == "/_evoxy/explain/";
    }
    if "/_evoxy/explain/" <= path {
      var target := path[|EXPLAIN_PREFIX|..];
      assert path == "/_evoxy/explain" + target;
      assert target[0] == "/_evoxy/explain/"[|EXPLAIN_PREFIX|] == '/';
      ExplainPlace(target);
    }
  }

  // ----- what they are answered -----

  lemma PlaceShown(place: Place, token: Option<string>, f: Brain, s: Surface, hs: Headers)
    requires PlaceOf(ReservedPath(hs)) == place && place != AdminPlane
    ensures ReservedReplied(token, f, s, hs) == Shown(place, f, s, hs) && ReservedSurface(token, s, hs) == s
  {
  }

  lemma MetricsShown(f: Brain, s: Surface, hs: Headers)
    ensures Shown(Metrics, f, s, hs) == Some(MetricsSnapshot(s.routed + s.rejected, s.routed, s.rejected))
  {
  }

  lemma StepShows(setup: Setup, s: Surface, headers: Headers, hs: Headers, last: bool, acknowledged: bool)
    requires ReservedReplied(setup.token, setup.f, s, hs).Some?
    ensures Step(setup, s, headers, RequestHeaders(hs, last), acknowledged)
            == Effects(Introspection(ReservedReplied(setup.token, setup.f, s, hs).value),
                       ReservedSurface(setup.token, s, hs), hs, [])
  {
  }

  /** A metrics request is answered with the counters, and their sum. */
  lemma MetricsAnswered(setup: Setup, s: Surface, headers: Headers, hs: Headers, i: nat, query: Option<string>,
                        last: bool, acknowledged: bool)
    requires LineIs(hs, i, "/_evoxy/metrics", query)
    ensures Step(setup, s, headers, RequestHeaders(hs, last), acknowledged)
            == Effects(Introspection(MetricsSnapshot(s.routed + s.rejected, s.routed, s.rejected)), s, hs, [])
  {
    LineRead(hs, i, "/_evoxy/metrics", query);
    MetricsPlace();
    PlaceShown(Metrics, setup.token, setup.f, s, hs);
    MetricsShown(setup.f, s, hs);
    StepShows(setup, s, headers, hs, last, acknowledged);
  }

  /** An explain request is answered with what the brain would do with the path behind the prefix,
      and does nothing. */
  lemma ExplainAnswered(setup: Setup, s: Surface, headers: Headers, hs: Headers, i: nat, target: string,
                        query: Option<string>, last: bool, acknowledged: bool)
    requires target != "" && target[0] == '/' && LineIs(hs, i, "/_evoxy/explain" + target, query)
    ensures Step(setup, s, headers, RequestHeaders(hs, last), acknowledged)
            == Effects(Introspection(Explanation(ExplainRequest(setup.f, RequestFrom(hs, Some(target), "")))),
                       s, hs, [])
  {
    LineRead(hs, i, "/_evoxy/explain" + target, query);
    ExplainPlace(target);
  }

  /** The token a header list bears: behind `bearer`, in any case, and one space, trimmed. */
  ghost predicate Bears(headers: Headers, token: string) {
    exists i: nat, scheme: string, text: string ::
      FirstNamed(headers, "authorization", i) && Free(scheme, ' ') && EqIgnoreCase(scheme, "bearer")
      && headers[i].1 == scheme + [' '] + text && Trim(text) == token
  }

  lemma BearsIff(headers: Headers, token: string)
    ensures Bearer(headers) == Some(token) <==> Bears(headers, token)
  {
    if i: nat, scheme: string, text: string :|
      FirstNamed(headers, "authorization", i) && Free(scheme, ' ') && EqIgnoreCase(scheme, "bearer")
      && headers[i].1 == scheme + [' '] + text && Trim(text) == token
    {
      HeaderValueAt(headers, "authorization", i);
      SplitOnceAt(scheme, ' ', text);
    }
    if Bearer(headers) == Some(token) {
      var i := FirstOf(headers, "authorization");
      var r := SplitOnce(headers[i].1, ' ').value;
      assert headers[i].1 == r.0 + [' '] + r.1;
    }
  }

  /** The spellings of a switch value. */
  function Spellings(on: bool): seq<string> {
    if on then ["true", "1"] else ["false", "0"]
  }

  lemma BoolIff(text: string, on: bool)
    ensures ParseBool(text) == Some(on) <==> text in Spellings(on)
  {
    assert |"true"| == 4 && |"false"| == 5 && "1"[0] == '1' && "0"[0] == '0';
  }

  /** One part of a query gives the switch a value exactly when it names the switch and spells the
      value. */
  lemma SettingIff(part: string, on: bool)
    ensures Setting(part) == Some(on) <==>
            exists text :: text in Spellings(on) && part == "emit_decision" + ['='] + text
  {
    if text :| text in Spellings(on) && part == "emit_decision" + ['='] + text {
      SplitOnceAt("emit_decision", '=', text);
      BoolIff(text, on);
    }
    if Setting(part) == Some(on) {
      var kv := SplitOnce(part, '=').value;
      BoolIff(kv.1, on);
      assert part == "emit_decision" + ['='] + kv.1;
    }
  }

  /** An admin request that bears the configured token is answered with the directives as its query
      leaves them; any other is answered 403 and changes nothing. Neither moves a counter. */
  lemma AdminAnswered(setup: Setup, s: Surface, headers: Headers, hs: Headers, i: nat, query: Option<string>,
                      last: bool, acknowledged: bool)
    requires LineIs(hs, i, "/_evoxy/admin/directives", query)
    ensures var on := LastOr(if query.Some? then Settings(Split(query.value, '&')) else [], s.emit);
            Step(setup, s, headers, RequestHeaders(hs, last), acknowledged) ==
            if setup.token.Some? && Bears(hs, setup.token.value)
            then Effects(Introspection(DirectivesSnapshot(on)), s.(emit := on), hs, [])
            else Effects(Introspection(Unauthorized), s, hs, [])
  {
    LineRead(hs, i, "/_evoxy/admin/directives", query);
    AdminPlace();
    if setup.token.Some? { BearsIff(hs, setup.token.value); }
  }

  // ----- the phases that pass -----

  /** Headers with a body to come are passed on unchanged; nothing is decided yet. */
  lemma HeadersPassed(setup: Setup, s: Surface, headers: Headers, hs: Headers, acknowledged: bool,
                      h: Recorders.HeaderMap, body: string)
    requires !Reserved(hs)
    ensures var e := Step(setup, s, headers, RequestHeaders(hs, false), acknowledged);
            && EnvoySends(h, body, e.answer) == Some(Recorders.Sent(h, body))
            && e.surface == s && e.headers == hs && e.records == []
  {
    ReservedStep(setup, s, headers, RequestHeaders(hs, false), acknowledged);
  }

  /** A response shows the decision of its stream's own request exactly when the switch is on and
      the request resolves. */
  lemma DecisionAnsweredIff(setup: Setup, s: Surface, headers: Headers, acknowledged: bool, p: Resolved)
    ensures var ctx := FromFilter(RequestFrom(headers, None, ""));
            Step(setup, s, headers, ResponseHeaders, acknowledged).answer == AtResponseHeaders(Some(p))
            <==> s.emit && ctx.Some? && setup.f.router.resolve(ctx.value) == Ok(p)
  {
  }
}
