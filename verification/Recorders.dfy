/** The two recorders of the brain's effects and how each commits them: the ext_proc backend
    (crates/evoxy-extproc/src/actions.rs) as mutations in a response message, the module
    backend (crates/evoxy-module-sdk/src/sdk.rs) as calls on Envoy's request handle. */
module Recorders {
  import opened Common
  import opened Adapter
  import opened Route
  import opened Filter
  import Percent

  const CLUSTER_HEADER := "x-evoxy-cluster"
  const CONTENT_LENGTH := "content-length"

  // ----- what both record -----

  datatype Notes = Notes(
    verb: Option<string>,
    path: Option<string>,
    cluster: Option<string>,
    host: Option<string>,
    body: Option<string>,
    sets: seq<(string, string)>,
    removes: seq<string>,
    immediate: Option<Reply>)

  const NoNotes := Notes(None, None, None, None, None, [], [], None)

  function Noted(n: Notes, e: Effect): Notes {
    match e
    case SetCluster(cluster) => n.(cluster := Some(cluster))
    case SetHost(host) => n.(host := Some(host))
    case SetMethod(verb) => n.(verb := Some(verb))
    case SetPath(path) => n.(path := Some(path))
    case SetBody(body) => n.(body := Some(body))
    case SetHeader(name, value) => n.(sets := n.sets + [(name, value)])
    case DropHeader(name) => n.(removes := n.removes + [name])
    case LocalReply(status, text) => n.(immediate := Some(Reply(status, text)))
  }

  function NotedAll(n: Notes, effects: seq<Effect>): Notes
    decreases effects
  {
    if effects == [] then n else NotedAll(Noted(n, effects[0]), effects[1..])
  }

  // ----- headers -----

  /** The values of each header, by lower-case name. */
  type HeaderMap = map<string, seq<string>>

  function WithHeader(h: HeaderMap, set1: (string, string)): HeaderMap {
    h[Lower(set1.0) := [set1.1]]
  }

  function PutAll(h: HeaderMap, sets: seq<(string, string)>): HeaderMap
    decreases sets
  {
    if sets == [] then h else PutAll(WithHeader(h, sets[0]), sets[1..])
  }

  function DropAll(h: HeaderMap, removes: seq<string>): HeaderMap
    decreases removes
  {
    if removes == [] then h else DropAll(h - {Lower(removes[0])}, removes[1..])
  }

  /** A header that is set when there is a value for it. */
  function Setting(name: string, value: Option<string>): seq<(string, string)> {
    if value.Some? then [(name, value.value)] else []
  }

  /** The request Envoy sends on, or the reply it gives. */
  datatype Sent = Sent(headers: HeaderMap, body: string) | Answered(reply: Reply)

  // ----- ext_proc -----

  datatype HeaderMutation = HeaderMutation(sets: seq<(string, string)>, removes: seq<string>)

  datatype CommonResponse = CommonResponse(headers: Option<HeaderMutation>, body: Option<string>)

  /** A value that differs from the original; an unchanged one is not sent again. */
  function IfChanged(value: Option<string>, original: string): Option<string> {
    if value == Some(original) then None else value
  }

  function RoutingSets(n: Notes, origMethod: string, origPath: string): seq<(string, string)> {
    Setting(":method", IfChanged(n.verb, origMethod)) + Setting(":path", IfChanged(n.path, origPath))
    + Setting(CLUSTER_HEADER, n.cluster) + Setting(":authority", n.host)
  }

  function Finished(n: Notes, origMethod: string, origPath: string): Result<CommonResponse, Reply> {
    if n.immediate.Some? then Err(n.immediate.value)
    else
      var sets := n.sets + RoutingSets(n, origMethod, origPath);
      var removes := n.removes + if n.body.Some? then [CONTENT_LENGTH] else [];
      Ok(CommonResponse(if sets == [] && removes == [] then None else Some(HeaderMutation(sets, removes)), n.body))
  }

  class ExtProcActions {
    var verb: Option<string>
    var path: Option<string>
    var cluster: Option<string>
    var host: Option<string>
    var extraHeaders: seq<(string, string)>
    var removeHeaders: seq<string>
    var body: Option<string>
    var immediate: Option<Reply>

    function State(): Notes
      reads this
    {
      Notes(verb, path, cluster, host, body, extraHeaders, removeHeaders, immediate)
    }

    constructor ()
      ensures State() == NoNotes
    {
      verb, path, cluster, host, body, immediate := None, None, None, None, None, None;
      extraHeaders, removeHeaders := [], [];
    }

    method Perform(e: Effect)
      modifies this
      ensures State() == Noted(old(State()), e)
    {
      match e {
        case SetCluster(c) => cluster := Some(c);
        case SetHost(h) => host := Some(h);
        case SetMethod(m) => verb := Some(m);
        case SetPath(p) => path := Some(p);
        case SetBody(b) => body := Some(b);
        case SetHeader(name, value) => extraHeaders := extraHeaders + [(name, value)];
        case DropHeader(name) => removeHeaders := removeHeaders + [name];
        case LocalReply(status, text) => immediate := Some(Reply(status, text));
      }
    }

    method PerformAll(effects: seq<Effect>)
      modifies this
      ensures State() == NotedAll(old(State()), effects)
    {
      assert effects[0..] == effects;
      for i := 0 to |effects|
        invariant NotedAll(State(), effects[i..]) == NotedAll(old(State()), effects)
      {
        assert effects[i..][0] == effects[i] && effects[i..][1..] == effects[i + 1..];
        Perform(effects[i]);
      }
    }

    method Finish(origMethod: string, origPath: string) returns (r: Result<CommonResponse, Reply>)
      ensures r == Finished(State(), origMethod, origPath)
    {
      if immediate.Some? {
        return Err(immediate.value);
      }
      var sets := PushRouting(extraHeaders, origMethod, origPath);
      var removes := removeHeaders;
      if body.Some? {
        removes := removes + [CONTENT_LENGTH];
      } else {
        assert removes == removes + [];
      }
      var mutation := if sets == [] && removes == [] then None else Some(HeaderMutation(sets, removes));
      r := Ok(CommonResponse(mutation, body));
    }

    /** The routing headers pushed behind the others. */
    method PushRouting(before: seq<(string, string)>, origMethod: string, origPath: string)
      returns (sets: seq<(string, string)>)
      ensures sets == before + RoutingSets(State(), origMethod, origPath)
    {
      var changedVerb := IfChanged(verb, origMethod);
      var changedPath := IfChanged(path, origPath);
      sets := before;
      sets := sets + Setting(":method", changedVerb);
      sets := sets + Setting(":path", changedPath);
      sets := sets + Setting(CLUSTER_HEADER, cluster);
      sets := sets + Setting(":authority", host);
      FourBehind(before, Setting(":method", changedVerb), Setting(":path", changedPath),
                 Setting(CLUSTER_HEADER, cluster), Setting(":authority", host));
    }
  }

  lemma FourBehind<T>(s: seq<T>, a: seq<T>, b: seq<T>, c: seq<T>, d: seq<T>)
    ensures s + a + b + c + d == s + (a + b + c + d)
  {
  }

  /** How Envoy applies an ext_proc answer: removals before additions, then the body. */
  function ExtProcSent(h: HeaderMap, body: string, answer: Result<CommonResponse, Reply>): Sent {
    match answer
    case Err(reply) => Answered(reply)
    case Ok(c) =>
      Sent(if c.headers.Some? then PutAll(DropAll(h, c.headers.value.removes), c.headers.value.sets) else h,
           if c.body.Some? then c.body.value else body)
  }

  // ----- the module -----

  /** Envoy's handle on the buffered request. */
  class Envoy {
    var headers: HeaderMap
    var body: string
    var reply: Option<Reply>

    function State(): Sent
      reads this
    {
      if reply.Some? then Answered(reply.value) else Sent(headers, body)
    }

    constructor (headers: HeaderMap, body: string)
      ensures State() == Sent(headers, body) && reply == None
    {
      this.headers, this.body, reply := headers, body, None;
    }

    method SetRequestHeader(name: string, value: string)
      modifies this
      ensures headers == WithHeader(old(headers), (name, value)) && body == old(body) && reply == old(reply)
    {
      headers := WithHeader(headers, (name, value));
    }

    method RemoveRequestHeader(name: string)
      modifies this
      ensures headers == old(headers) - {Lower(name)} && body == old(body) && reply == old(reply)
    {
      headers := headers - {Lower(name)};
    }

    method SendResponse(r: Reply)
      modifies this
      ensures reply == Some(r)
    {
      reply := Some(r);
    }

    method DrainBody(n: nat)
      requires n <= |body|
      modifies this
      ensures body == old(body)[n..] && headers == old(headers) && reply == old(reply)
    {
      body := body[n..];
    }

    method AppendBody(more: string)
      modifies this
      ensures body == old(body) + more && headers == old(headers) && reply == old(reply)
    {
      body := body + more;
    }
  }

  function LengthText(body: string): string {
    Decimal(|Percent.Utf8(body)|)
  }

  function ModuleHeaders(h: HeaderMap, n: Notes): HeaderMap {
    var line := PutAll(h, Setting(":method", n.verb) + Setting(":path", n.path) + Setting(":authority", n.host));
    PutAll(DropAll(PutAll(line, n.sets), n.removes), Setting(CLUSTER_HEADER, n.cluster))
  }

  function ModuleSent(h: HeaderMap, original: string, n: Notes): Sent {
    if n.immediate.Some? then Answered(n.immediate.value)
    else if n.body.Some? && n.body.value != original
    then Sent(WithHeader(ModuleHeaders(h, n), (CONTENT_LENGTH, LengthText(n.body.value))), n.body.value)
    else Sent(ModuleHeaders(h, n), original)
  }

  class SdkActions {
    var verb: Option<string>
    var path: Option<string>
    var cluster: Option<string>
    var host: Option<string>
    var body: Option<string>
    var setHeaders: seq<(string, string)>
    var removeHeaders: seq<string>
    var immediate: Option<Reply>

    function State(): Notes
      reads this
    {
      Notes(verb, path, cluster, host, body, setHeaders, removeHeaders, immediate)
    }

    constructor ()
      ensures State() == NoNotes
    {
      verb, path, cluster, host, body, immediate := None, None, None, None, None, None;
      setHeaders, removeHeaders := [], [];
    }

    method Perform(e: Effect)
      modifies this
      ensures State() == Noted(old(State()), e)
    {
      match e {
        case SetCluster(c) => cluster := Some(c);
        case SetHost(h) => host := Some(h);
        case SetMethod(m) => verb := Some(m);
        case SetPath(p) => path := Some(p);
        case SetBody(b) => body := Some(b);
        case SetHeader(name, value) => setHeaders := setHeaders + [(name, value)];
        case DropHeader(name) => removeHeaders := removeHeaders + [name];
        case LocalReply(status, text) => immediate := Some(Reply(status, text));
      }
    }

    method PerformAll(effects: seq<Effect>)
      modifies this
      ensures State() == NotedAll(old(State()), effects)
    {
      assert effects[0..] == effects;
      for i := 0 to |effects|
        invariant NotedAll(State(), effects[i..]) == NotedAll(old(State()), effects)
      {
        assert effects[i..][0] == effects[i] && effects[i..][1..] == effects[i + 1..];
        Perform(effects[i]);
      }
    }

    method ApplyLine(envoy: Envoy)
      modifies envoy
      ensures envoy.headers ==
              PutAll(old(envoy.headers), Setting(":method", verb) + Setting(":path", path) + Setting(":authority", host))
      ensures envoy.body == old(envoy.body) && envoy.reply == old(envoy.reply)
    {
      LineSets(envoy.headers, verb, path, host);
      if verb.Some? {
        envoy.SetRequestHeader(":method", verb.value);
      }
      if path.Some? {
        envoy.SetRequestHeader(":path", path.value);
      }
      if host.Some? {
        envoy.SetRequestHeader(":authority", host.value);
      }
    }

    /** The request line, authority, set and removed headers, in the order they are applied. */
    method ApplyHeaders(envoy: Envoy)
      modifies envoy
      ensures envoy.headers == ModuleHeaders(old(envoy.headers), State())
      ensures envoy.body == old(envoy.body) && envoy.reply == old(envoy.reply)
    {
      ApplyLine(envoy);
      SetAll(envoy, setHeaders);
      RemoveAll(envoy, removeHeaders);
      SettingAt(envoy.headers, CLUSTER_HEADER, cluster);
      if cluster.Some? {
        envoy.SetRequestHeader(CLUSTER_HEADER, cluster.value);
      }
    }

    method ReplaceBody(envoy: Envoy, text: string)
      modifies envoy
      ensures envoy.headers == WithHeader(old(envoy.headers), (CONTENT_LENGTH, LengthText(text)))
      ensures envoy.body == text && envoy.reply == old(envoy.reply)
    {
      var existing := |envoy.body|;
      if existing > 0 {
        envoy.DrainBody(existing);
      }
      assert envoy.body == "";
      envoy.AppendBody(text);
      envoy.SetRequestHeader(CONTENT_LENGTH, LengthText(text));
    }

    method Apply(envoy: Envoy, originalBody: string)
      requires envoy.reply == None && envoy.body == originalBody
      modifies envoy
      ensures envoy.State() == ModuleSent(old(envoy.headers), originalBody, State())
    {
      if immediate.Some? {
        envoy.SendResponse(immediate.value);
        return;
      }
      ApplyHeaders(envoy);
      if body.Some? && body.value != originalBody {
        ReplaceBody(envoy, body.value);
      }
    }
  }

  lemma SettingAt(h: HeaderMap, name: string, value: Option<string>)
    ensures PutAll(h, Setting(name, value)) == if value.Some? then WithHeader(h, (name, value.value)) else h
  {
    if value.Some? { assert [(name, value.value)][1..] == []; }
  }

  lemma LineSets(h: HeaderMap, verb: Option<string>, path: Option<string>, host: Option<string>)
    ensures var withVerb := if verb.Some? then WithHeader(h, (":method", verb.value)) else h;
            var withPath := if path.Some? then WithHeader(withVerb, (":path", path.value)) else withVerb;
            PutAll(h, Setting(":method", verb) + Setting(":path", path) + Setting(":authority", host))
            == if host.Some? then WithHeader(withPath, (":authority", host.value)) else withPath
  {
    var a, b, c := Setting(":method", verb), Setting(":path", path), Setting(":authority", host);
    PutConcat(h, a + b, c);
    PutConcat(h, a, b);
    SettingAt(h, ":method", verb);
    SettingAt(PutAll(h, a), ":path", path);
    SettingAt(PutAll(h, a + b), ":authority", host);
  }

  method SetAll(envoy: Envoy, sets: seq<(string, string)>)
    modifies envoy
    ensures envoy.headers == PutAll(old(envoy.headers), sets)
    ensures envoy.body == old(envoy.body) && envoy.reply == old(envoy.reply)
  {
    assert sets[0..] == sets;
    for i := 0 to |sets|
      invariant PutAll(envoy.headers, sets[i..]) == PutAll(old(envoy.headers), sets)
      invariant envoy.body == old(envoy.body) && envoy.reply == old(envoy.reply)
    {
      assert sets[i..][0] == sets[i] && sets[i..][1..] == sets[i + 1..];
      envoy.SetRequestHeader(sets[i].0, sets[i].1);
    }
  }

  method RemoveAll(envoy: Envoy, removes: seq<string>)
    modifies envoy
    ensures envoy.headers == DropAll(old(envoy.headers), removes)
    ensures envoy.body == old(envoy.body) && envoy.reply == old(envoy.reply)
  {
    assert removes[0..] == removes;
    for i := 0 to |removes|
      invariant DropAll(envoy.headers, removes[i..]) == DropAll(old(envoy.headers), removes)
      invariant envoy.body == old(envoy.body) && envoy.reply == old(envoy.reply)
    {
      assert removes[i..][0] == removes[i] && removes[i..][1..] == removes[i + 1..];
      envoy.RemoveRequestHeader(removes[i]);
    }
  }

  // ----- one header at a time -----

  function At(h: HeaderMap, k: string): Option<seq<string>> {
    if k in h then Some(h[k]) else None
  }

  /** The value the last setting of this name gives it. */
  function LastSet(sets: seq<(string, string)>, k: string): Option<string>
    decreases sets
  {
    if sets == [] then None
    else
      var later := LastSet(sets[1..], k);
      if later.Some? then later else if Lower(sets[0].0) == k then Some(sets[0].1) else None
  }

  predicate Removes(removes: seq<string>, k: string) {
    removes != [] && (Lower(removes[0]) == k || Removes(removes[1..], k))
  }

  lemma {:induction false} PutAllAt(h: HeaderMap, sets: seq<(string, string)>, k: string)
    ensures At(PutAll(h, sets), k) ==
            if LastSet(sets, k).Some? then Some([LastSet(sets, k).value]) else At(h, k)
    decreases sets
  {
    if sets != [] { PutAllAt(WithHeader(h, sets[0]), sets[1..], k); }
  }

  lemma {:induction false} DropAllAt(h: HeaderMap, removes: seq<string>, k: string)
    ensures At(DropAll(h, removes), k) == if Removes(removes, k) then None else At(h, k)
    decreases removes
  {
    if removes != [] { DropAllAt(h - {Lower(removes[0])}, removes[1..], k); }
  }

  lemma {:induction false} PutConcat(h: HeaderMap, a: seq<(string, string)>, b: seq<(string, string)>)
    ensures PutAll(h, a + b) == PutAll(PutAll(h, a), b)
    decreases a
  {
    if a == [] {
      assert a + b == b;
    } else {
      PutConcat(WithHeader(h, a[0]), a[1..], b);
      assert (a + b)[1..] == a[1..] + b;
    }
  }

  lemma {:induction false} RemovesConcat(a: seq<string>, b: seq<string>, k: string)
    ensures Removes(a + b, k) <==> Removes(a, k) || Removes(b, k)
  {
    if a == [] {
      assert a + b == b;
    } else {
      RemovesConcat(a[1..], b, k);
      assert (a + b)[1..] == a[1..] + b;
    }
  }

  lemma {:induction false} LastSetConcat(a: seq<(string, string)>, b: seq<(string, string)>, k: string)
    ensures LastSet(a + b, k) == if LastSet(b, k).Some? then LastSet(b, k) else LastSet(a, k)
    decreases a
  {
    if a == [] {
      assert a + b == b;
    } else {
      LastSetConcat(a[1..], b, k);
      assert (a + b)[1..] == a[1..] + b;
    }
  }

  // ----- the two commits, header by header -----

  const Routing: set<string> := {":method", ":path", ":authority", CLUSTER_HEADER}

  /** No header is both set and removed, and none is a routing header. */
  ghost predicate Disjoint(n: Notes) {
    && (forall k :: LastSet(n.sets, k).Some? ==> k !in Routing && !Removes(n.removes, k))
    && (forall k :: Removes(n.removes, k) ==> k !in Routing)
  }

  /** What a recorder decides for a routing header. */
  function RoutingNote(n: Notes, k: string): Option<string> {
    if k == ":method" then n.verb
    else if k == ":path" then n.path
    else if k == ":authority" then n.host
    else if k == CLUSTER_HEADER then n.cluster
    else None
  }

  lemma LowerKeeps(s: string)
    requires forall i :: 0 <= i < |s| ==> !('A' <= s[i] <= 'Z')
    ensures Lower(s) == s
  {
  }

  lemma LowerMethod()
    ensures Lower(":method") == ":method"
  {
    LowerKeeps(":method");
  }

  lemma LowerPath()
    ensures Lower(":path") == ":path"
  {
    LowerKeeps(":path");
  }

  lemma LowerAuthority()
    ensures Lower(":authority") == ":authority"
  {
    LowerKeeps(":authority");
  }

  lemma LowerCluster()
    ensures Lower(CLUSTER_HEADER) == CLUSTER_HEADER
  {
    LowerKeeps(CLUSTER_HEADER);
  }

  lemma LowerLength()
    ensures Lower(CONTENT_LENGTH) == CONTENT_LENGTH
  {
    LowerKeeps(CONTENT_LENGTH);
  }

  lemma LowerNames()
    ensures Lower(":method") == ":method" && Lower(":path") == ":path" && Lower(":authority") == ":authority"
    ensures Lower(CLUSTER_HEADER) == CLUSTER_HEADER
  {
    LowerMethod();
    LowerPath();
    LowerAuthority();
    LowerCluster();
  }

  lemma SettingSets(name: string, value: Option<string>, k: string)
    requires Lower(name) == name
    ensures LastSet(Setting(name, value), k) == if k == name then value else None
  {
    if value.Some? { assert [(name, value.value)][1..] == []; }
  }

  /** The module's headers: a routing note wins, then removal, then the last setting. */
  lemma ModuleHeaderAt(h: HeaderMap, n: Notes, k: string)
    requires Disjoint(n)
    ensures At(ModuleHeaders(h, n), k) ==
            if RoutingNote(n, k).Some? then Some([RoutingNote(n, k).value])
            else if Removes(n.removes, k) then None
            else if LastSet(n.sets, k).Some? then Some([LastSet(n.sets, k).value])
            else At(h, k)
  {
    var a, b, c := Setting(":method", n.verb), Setting(":path", n.path), Setting(":authority", n.host);
    LowerNames();
    SettingSets(":method", n.verb, k);
    SettingSets(":path", n.path, k);
    SettingSets(":authority", n.host, k);
    SettingSets(CLUSTER_HEADER, n.cluster, k);
    LastSetConcat(a + b, c, k);
    LastSetConcat(a, b, k);
    var line := PutAll(h, a + b + c);
    PutAllAt(h, a + b + c, k);
    PutAllAt(line, n.sets, k);
    DropAllAt(PutAll(line, n.sets), n.removes, k);
    PutAllAt(DropAll(PutAll(line, n.sets), n.removes), Setting(CLUSTER_HEADER, n.cluster), k);
    NamesApart();
  }

  lemma NamesApart()
    ensures ":method" != ":path" && ":method" != ":authority" && ":method" != CLUSTER_HEADER
    ensures ":path" != ":authority" && ":path" != CLUSTER_HEADER && ":authority" != CLUSTER_HEADER
    ensures CONTENT_LENGTH !in Routing
  {
    assert ":method"[1] == 'm' && ":path"[1] == 'p' && ":authority"[1] == 'a';
    assert CLUSTER_HEADER[0] == 'x' && CONTENT_LENGTH[0] == 'c';
  }

  /** What ext_proc sends for a routing header: the note, unless it repeats the original. */
  function ExtProcNote(n: Notes, origMethod: string, origPath: string, k: string): Option<string> {
    if k == ":method" then IfChanged(n.verb, origMethod)
    else if k == ":path" then IfChanged(n.path, origPath)
    else RoutingNote(n, k)
  }

  lemma RoutingSetsAt(n: Notes, origMethod: string, origPath: string, k: string)
    ensures LastSet(RoutingSets(n, origMethod, origPath), k) == ExtProcNote(n, origMethod, origPath, k)
  {
    var verb, path := IfChanged(n.verb, origMethod), IfChanged(n.path, origPath);
    var a, b := Setting(":method", verb), Setting(":path", path);
    var c, d := Setting(CLUSTER_HEADER, n.cluster), Setting(":authority", n.host);
    LowerNames();
    NamesApart();
    SettingSets(":method", verb, k);
    SettingSets(":path", path, k);
    SettingSets(CLUSTER_HEADER, n.cluster, k);
    SettingSets(":authority", n.host, k);
    LastSetConcat(a + b + c, d, k);
    LastSetConcat(a + b, c, k);
    LastSetConcat(a, b, k);
  }

  function ExtProcHeaders(h: HeaderMap, n: Notes, origMethod: string, origPath: string): HeaderMap {
    PutAll(DropAll(h, n.removes + if n.body.Some? then [CONTENT_LENGTH] else []),
           n.sets + RoutingSets(n, origMethod, origPath))
  }

  lemma ExtProcSentIs(h: HeaderMap, body: string, n: Notes, origMethod: string, origPath: string)
    ensures ExtProcSent(h, body, Finished(n, origMethod, origPath)) ==
            if n.immediate.Some? then Answered(n.immediate.value)
            else Sent(ExtProcHeaders(h, n, origMethod, origPath), if n.body.Some? then n.body.value else body)
  {
  }

  lemma OtherThanLength(n: Notes, k: string)
    requires k != CONTENT_LENGTH
    ensures Removes(n.removes + (if n.body.Some? then [CONTENT_LENGTH] else []), k) <==> Removes(n.removes, k)
  {
    var extra := if n.body.Some? then [CONTENT_LENGTH] else [];
    LowerLength();
    RemovesConcat(n.removes, extra, k);
    if n.body.Some? { assert [CONTENT_LENGTH][1..] == []; }
  }

  lemma ExtProcHeaderAt(h: HeaderMap, n: Notes, origMethod: string, origPath: string, k: string)
    requires k != CONTENT_LENGTH
    ensures At(ExtProcHeaders(h, n, origMethod, origPath), k) ==
            var note := ExtProcNote(n, origMethod, origPath, k);
            if note.Some? then Some([note.value])
            else if LastSet(n.sets, k).Some? then Some([LastSet(n.sets, k).value])
            else if Removes(n.removes, k) then None
            else At(h, k)
  {
    var removes := n.removes + if n.body.Some? then [CONTENT_LENGTH] else [];
    var routing := RoutingSets(n, origMethod, origPath);
    RoutingSetsAt(n, origMethod, origPath, k);
    OtherThanLength(n, k);
    DropAllAt(h, removes, k);
    PutAllAt(DropAll(h, removes), n.sets + routing, k);
    LastSetConcat(n.sets, routing, k);
  }

  // ----- the backends agree -----

  /** Equal up to the content-length header. */
  ghost predicate SameRequest(a: Sent, b: Sent) {
    match (a, b)
    case (Answered(x), Answered(y)) => x == y
    case (Sent(g, x), Sent(h, y)) => x == y && SameHeaders(g, h)
    case _ => false
  }

  /** The client's request line stands in the pseudo headers. */
  predicate LineInHeaders(h: HeaderMap, verb: string, pathAndQuery: string) {
    At(h, ":method") == Some([verb]) && At(h, ":path") == Some([pathAndQuery])
  }

  /** The one case in which the backends differ. */
  predicate QueryKept(n: Notes, pathAndQuery: string) {
    n.path == Some(PathOf(pathAndQuery)) && !Free(pathAndQuery, '?')
  }

  lemma HeadersAgree(h: HeaderMap, n: Notes, verb: string, pathAndQuery: string, k: string)
    requires Disjoint(n) && LineInHeaders(h, verb, pathAndQuery) && k != CONTENT_LENGTH
    ensures At(ExtProcHeaders(h, n, verb, PathOf(pathAndQuery)), k) == At(ModuleHeaders(h, n), k)
            <==> !(k == ":path" && QueryKept(n, pathAndQuery))
  {
    ExtProcHeaderAt(h, n, verb, PathOf(pathAndQuery), k);
    ModuleHeaderAt(h, n, k);
    NamesApart();
    PathWhole(pathAndQuery);
  }

  ghost predicate SameHeaders(g: HeaderMap, h: HeaderMap) {
    forall k :: k != CONTENT_LENGTH ==> At(g, k) == At(h, k)
  }

  lemma AllHeadersAgree(h: HeaderMap, n: Notes, verb: string, pathAndQuery: string)
    requires Disjoint(n) && LineInHeaders(h, verb, pathAndQuery)
    ensures SameHeaders(ExtProcHeaders(h, n, verb, PathOf(pathAndQuery)), ModuleHeaders(h, n))
            <==> !QueryKept(n, pathAndQuery)
  {
    var g := ExtProcHeaders(h, n, verb, PathOf(pathAndQuery));
    forall k | k != CONTENT_LENGTH && !QueryKept(n, pathAndQuery) ensures At(g, k) == At(ModuleHeaders(h, n), k) {
      HeadersAgree(h, n, verb, pathAndQuery, k);
    }
    assert ":path"[0] != CONTENT_LENGTH[0];
    HeadersAgree(h, n, verb, pathAndQuery, ":path");
  }

  lemma LengthApart(h: HeaderMap, g: HeaderMap, length: string)
    ensures SameHeaders(g, WithHeader(h, (CONTENT_LENGTH, length))) <==> SameHeaders(g, h)
  {
    var w := WithHeader(h, (CONTENT_LENGTH, length));
    forall k | k != CONTENT_LENGTH ensures At(w, k) == At(h, k) { LengthOnly(h, length, k); }
  }

  lemma LengthOnly(h: HeaderMap, length: string, k: string)
    requires k != CONTENT_LENGTH
    ensures At(WithHeader(h, (CONTENT_LENGTH, length)), k) == At(h, k)
  {
    LowerLength();
  }

  /** For every sequence of effects, the two recorders answer the same reply or forward the same
      request up to content-length, except in one case: the brain sets the path to the client's
      own path while the client sent a query. ext_proc then sees no change and the query stays,
      where the module replaces path and query. */
  lemma BackendsAgreeIff(h: HeaderMap, verb: string, pathAndQuery: string, body: string, effects: seq<Effect>)
    requires LineInHeaders(h, verb, pathAndQuery) && Disjoint(NotedAll(NoNotes, effects))
    ensures var n := NotedAll(NoNotes, effects);
            SameRequest(ExtProcSent(h, body, Finished(n, verb, PathOf(pathAndQuery))), ModuleSent(h, body, n))
            <==> n.immediate.Some? || !QueryKept(n, pathAndQuery)
  {
    var n := NotedAll(NoNotes, effects);
    ExtProcSentIs(h, body, n, verb, PathOf(pathAndQuery));
    AllHeadersAgree(h, n, verb, pathAndQuery);
    if n.body.Some? {
      LengthApart(ModuleHeaders(h, n), ExtProcHeaders(h, n, verb, PathOf(pathAndQuery)), LengthText(n.body.value));
    }
  }

  lemma PathWhole(pathAndQuery: string)
    ensures PathOf(pathAndQuery) == pathAndQuery <==> Free(pathAndQuery, '?')
  {
    QuerySplit(pathAndQuery);
  }

  // ----- what is sent is what was decided -----

  function SetsOf(edits: seq<Edit>): seq<(string, string)> {
    if edits == [] then []
    else (if edits[0].Put? then [(edits[0].name, edits[0].value)] else []) + SetsOf(edits[1..])
  }

  function DropsOf(edits: seq<Edit>): seq<string> {
    if edits == [] then [] else (if edits[0].Drop? then [edits[0].name] else []) + DropsOf(edits[1..])
  }

  /** A header after the edits, one after another. */
  function Edited(edits: seq<Edit>, k: string, original: Option<seq<string>>): Option<seq<string>>
    decreases edits
  {
    if edits == [] then original
    else if Lower(edits[0].name) != k then Edited(edits[1..], k, original)
    else Edited(edits[1..], k, if edits[0].Put? then Some([edits[0].value]) else None)
  }

  lemma Behind<T>(head: seq<T>, more: seq<T>, last: seq<T>)
    ensures head + (more + last) == head + more + last
  {
  }

  lemma {:induction false} SetsSnoc(edits: seq<Edit>, e: Edit)
    ensures SetsOf(edits + [e]) == SetsOf(edits) + SetsOf([e])
  {
    if edits == [] {
      assert [] + [e] == [e];
    } else {
      SetsSnoc(edits[1..], e);
      assert (edits + [e])[1..] == edits[1..] + [e];
      Behind(if edits[0].Put? then [(edits[0].name, edits[0].value)] else [], SetsOf(edits[1..]), SetsOf([e]));
    }
  }

  lemma {:induction false} DropsSnoc(edits: seq<Edit>, e: Edit)
    ensures DropsOf(edits + [e]) == DropsOf(edits) + DropsOf([e])
  {
    if edits == [] {
      assert [] + [e] == [e];
    } else {
      DropsSnoc(edits[1..], e);
      assert (edits + [e])[1..] == edits[1..] + [e];
      Behind(if edits[0].Drop? then [edits[0].name] else [], DropsOf(edits[1..]), DropsOf([e]));
    }
  }

  /** With no header both set and dropped, the order between sets and drops does not matter. */
  lemma {:induction false} EditedIs(edits: seq<Edit>, k: string, original: Option<seq<string>>)
    requires !(Removes(DropsOf(edits), k) && LastSet(SetsOf(edits), k).Some?)
    ensures Edited(edits, k, original) ==
            if Removes(DropsOf(edits), k) then None
            else if LastSet(SetsOf(edits), k).Some? then Some([LastSet(SetsOf(edits), k).value])
            else original
    decreases edits
  {
    if edits != [] {
      var e := edits[0];
      if e.Put? {
        assert ([(e.name, e.value)] + SetsOf(edits[1..]))[1..] == SetsOf(edits[1..]);
        assert [] + DropsOf(edits[1..]) == DropsOf(edits[1..]);
      } else {
        assert ([e.name] + DropsOf(edits[1..]))[1..] == DropsOf(edits[1..]);
        assert [] + SetsOf(edits[1..]) == SetsOf(edits[1..]);
      }
      EditedIs(edits[1..], k, if Lower(e.name) != k then original else if e.Put? then Some([e.value]) else None);
    }
  }

  function Or(value: Option<string>, original: string): string {
    if value.Some? then value.value else original
  }

  /** The notes hold the reply, or whatever of the outcome differs from the client's request. */
  predicate Tracks(n: Notes, o: Outcome, req: Request) {
    match o
    case Replied(reply) => n.immediate == Some(reply)
    case Forwarded(verb, path, body, cluster, host, edits) =>
      && n.immediate == None && n.cluster == cluster && n.host == host
      && verb == Or(n.verb, req.verb) && path == Or(n.path, req.pathAndQuery) && body == Or(n.body, req.body)
      && n.sets == SetsOf(edits) && n.removes == DropsOf(edits)
  }

  lemma OneEdit(e: Edit)
    ensures SetsOf([e]) == if e.Put? then [(e.name, e.value)] else []
    ensures DropsOf([e]) == if e.Drop? then [e.name] else []
  {
    assert [e][1..] == [];
  }

  lemma NoteTracks(n: Notes, o: Outcome, req: Request, e: Effect)
    requires Tracks(n, o, req)
    ensures Tracks(Noted(n, e), Take(o, e), req)
  {
    if o.Forwarded? && (e.SetHeader? || e.DropHeader?) {
      var edit := if e.SetHeader? then Filter.Put(e.name, e.value) else Filter.Drop(e.name);
      SetsSnoc(o.edits, edit);
      DropsSnoc(o.edits, edit);
      OneEdit(edit);
      assert SetsOf(o.edits) + [] == SetsOf(o.edits) && DropsOf(o.edits) + [] == DropsOf(o.edits);
    }
  }

  lemma {:induction false} NotesTrack(n: Notes, o: Outcome, req: Request, effects: seq<Effect>)
    requires Tracks(n, o, req)
    ensures Tracks(NotedAll(n, effects), TakeAll(o, effects), req)
    decreases effects
  {
    if effects != [] {
      NoteTracks(n, o, req, effects[0]);
      NotesTrack(Noted(n, effects[0]), Take(o, effects[0]), req, effects[1..]);
    }
  }

  /** A routing header: the value decided, or the client's own. */
  predicate HeaderIs(g: HeaderMap, h: HeaderMap, name: string, value: Option<string>) {
    At(g, name) == if value.Some? then Some([value.value]) else At(h, name)
  }

  ghost predicate EditsApplied(g: HeaderMap, h: HeaderMap, edits: seq<Edit>) {
    forall k :: k !in Routing && k != CONTENT_LENGTH ==> At(g, k) == Edited(edits, k, At(h, k))
  }

  /** What was sent carries the outcome: its line, body, cluster, host and header edits applied
      to the client's headers, or its reply. */
  ghost predicate Carries(sent: Sent, o: Outcome, h: HeaderMap) {
    match (sent, o)
    case (Answered(r), Replied(reply)) => r == reply
    case (Sent(g, b), Forwarded(verb, path, body, cluster, host, edits)) =>
      && b == body && At(g, ":method") == Some([verb]) && At(g, ":path") == Some([path])
      && HeaderIs(g, h, CLUSTER_HEADER, cluster) && HeaderIs(g, h, ":authority", host)
      && EditsApplied(g, h, edits)
    case _ => false
  }

  lemma RoutingHeaders(h: HeaderMap, n: Notes, verb: string, pathAndQuery: string)
    requires Disjoint(n) && LineInHeaders(h, verb, pathAndQuery)
    ensures var g := ModuleHeaders(h, n);
            && At(g, ":method") == Some([Or(n.verb, verb)]) && At(g, ":path") == Some([Or(n.path, pathAndQuery)])
            && HeaderIs(g, h, CLUSTER_HEADER, n.cluster) && HeaderIs(g, h, ":authority", n.host)
  {
    NamesApart();
    ModuleHeaderAt(h, n, ":method");
    ModuleHeaderAt(h, n, ":path");
    ModuleHeaderAt(h, n, ":authority");
    ModuleHeaderAt(h, n, CLUSTER_HEADER);
  }

  lemma EditedHeaders(h: HeaderMap, n: Notes, edits: seq<Edit>)
    requires Disjoint(n) && n.sets == SetsOf(edits) && n.removes == DropsOf(edits)
    ensures EditsApplied(ModuleHeaders(h, n), h, edits)
  {
    forall k | k !in Routing && k != CONTENT_LENGTH ensures At(ModuleHeaders(h, n), k) == Edited(edits, k, At(h, k)) {
      ModuleHeaderAt(h, n, k);
      EditedIs(edits, k, At(h, k));
    }
  }

  lemma SameCarries(a: Sent, b: Sent, o: Outcome, h: HeaderMap)
    requires SameRequest(a, b) && Carries(b, o, h)
    ensures Carries(a, o, h)
  {
    NamesApart();
  }

  /** The module forwards exactly the outcome of the effects. */
  lemma ModuleSendsOutcome(h: HeaderMap, req: Request, effects: seq<Effect>)
    requires LineInHeaders(h, req.verb, req.pathAndQuery) && Disjoint(NotedAll(NoNotes, effects))
    ensures Carries(ModuleSent(h, req.body, NotedAll(NoNotes, effects)), TakeAll(Untouched(req), effects), h)
  {
    var n, o := NotedAll(NoNotes, effects), TakeAll(Untouched(req), effects);
    NotesTrack(NoNotes, Untouched(req), req, effects);
    if o.Forwarded? {
      var g := ModuleHeaders(h, n);
      RoutingHeaders(h, n, req.verb, req.pathAndQuery);
      EditedHeaders(h, n, o.edits);
      assert Carries(Sent(g, Or(n.body, req.body)), o, h);
      if n.body.Some? { LengthApart(g, g, LengthText(n.body.value)); }
      SameCarries(ModuleSent(h, req.body, n), Sent(g, Or(n.body, req.body)), o, h);
    }
  }

  /** All that the outcome does to the client's path is to take its query off. */
  predicate QueryOnly(o: Outcome, req: Request) {
    o.Forwarded? && o.path == req.Path() && !Free(req.pathAndQuery, '?')
  }

  lemma QueryOnlyIff(req: Request, effects: seq<Effect>)
    ensures var n := NotedAll(NoNotes, effects);
            QueryOnly(TakeAll(Untouched(req), effects), req)
            <==> n.immediate.None? && QueryKept(n, req.pathAndQuery)
  {
    NotesTrack(NoNotes, Untouched(req), req, effects);
    PathWhole(req.pathAndQuery);
  }

  /** ext_proc forwards exactly the outcome of the effects, except exactly when all the outcome
      does to the client's path is to take its query off: then the query goes upstream. */
  lemma ExtProcSendsIff(h: HeaderMap, req: Request, effects: seq<Effect>)
    requires LineInHeaders(h, req.verb, req.pathAndQuery) && Disjoint(NotedAll(NoNotes, effects))
    ensures Carries(ExtProcSent(h, req.body, Finished(NotedAll(NoNotes, effects), req.verb, req.Path())),
                    TakeAll(Untouched(req), effects), h)
            <==> !QueryOnly(TakeAll(Untouched(req), effects), req)
  {
    var n, o := NotedAll(NoNotes, effects), TakeAll(Untouched(req), effects);
    var sent := ExtProcSent(h, req.body, Finished(n, req.verb, req.Path()));
    QueryOnlyIff(req, effects);
    ModuleSendsOutcome(h, req, effects);
    if QueryOnly(o, req) {
      QueryGoesOn(h, n, req);
    } else {
      BackendsAgreeIff(h, req.verb, req.pathAndQuery, req.body, effects);
      SameCarries(sent, ModuleSent(h, req.body, n), o, h);
    }
  }

  /** In that case the client's own path and query stand in what ext_proc sends. */
  lemma QueryGoesOn(h: HeaderMap, n: Notes, req: Request)
    requires LineInHeaders(h, req.verb, req.pathAndQuery) && Disjoint(n)
    requires n.immediate.None? && QueryKept(n, req.pathAndQuery)
    ensures var sent := ExtProcSent(h, req.body, Finished(n, req.verb, req.Path()));
            sent.Sent? && At(sent.headers, ":path") == Some([req.pathAndQuery])
            && req.pathAndQuery != req.Path()
  {
    ExtProcSentIs(h, req.body, n, req.verb, req.Path());
    PathWhole(req.pathAndQuery);
    NamesApart();
    assert ":path"[0] != CONTENT_LENGTH[0];
    ExtProcHeaderAt(h, n, req.verb, req.Path(), ":path");
    assert LastSet(n.sets, ":path").None?;
  }

  // ----- content-length -----

  /** The declared length, if any, is the length of the body in bytes. */
  predicate HonestLength(sent: Sent) {
    sent.Sent? ==>
      match At(sent.headers, "content-length")
      case None => true
      case Some(values) =>
        |values| == 1 && IsDigits(values[0]) && Value(values[0]) == |Percent.Utf8(sent.body)|
  }

  lemma LengthTextHonest(body: string)
    ensures IsDigits(LengthText(body)) && Value(LengthText(body)) == |Percent.Utf8(body)|
  {
    ValueDecimal(|Percent.Utf8(body)|);
  }

  /** Neither backend leaves a stale content-length behind: ext_proc drops it with every body
      it replaces, the module rewrites it with every body it changes. */
  lemma LengthStaysHonest(h: HeaderMap, body: string, n: Notes, origMethod: string, origPath: string)
    requires Disjoint(n) && HonestLength(Sent(h, body)) && LastSet(n.sets, "content-length").None?
    ensures HonestLength(ModuleSent(h, body, n))
    ensures HonestLength(ExtProcSent(h, body, Finished(n, origMethod, origPath)))
  {
    NamesApart();
    LowerLength();
    LengthTextHonest(if n.body.Some? then n.body.value else body);
    ModuleHeaderAt(h, n, CONTENT_LENGTH);
    ExtProcSentIs(h, body, n, origMethod, origPath);
    var removes := n.removes + if n.body.Some? then [CONTENT_LENGTH] else [];
    var routing := RoutingSets(n, origMethod, origPath);
    LengthRemoved(n);
    RoutingSetsAt(n, origMethod, origPath, CONTENT_LENGTH);
    LastSetConcat(n.sets, routing, CONTENT_LENGTH);
    DropAllAt(h, removes, CONTENT_LENGTH);
    PutAllAt(DropAll(h, removes), n.sets + routing, CONTENT_LENGTH);
  }

  lemma LengthRemoved(n: Notes)
    ensures Removes(n.removes + (if n.body.Some? then [CONTENT_LENGTH] else []), CONTENT_LENGTH)
            <==> Removes(n.removes, CONTENT_LENGTH) || n.body.Some?
  {
    LowerLength();
    RemovesConcat(n.removes, if n.body.Some? then [CONTENT_LENGTH] else [], CONTENT_LENGTH);
  }
}
