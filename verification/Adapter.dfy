/** The Envoy side of a request and the seam to the routing engine
    (crates/evoxy-abi/src/lib.rs, crates/evoxy-adapter/src): the decoded request, its
    classification by path and method, and the routing context built from both. */
module Adapter {
  import opened Common

  datatype Identity = Identity(presented: bool, subject: string, uriSans: seq<string>) {
    /** The first URI SAN, else the subject. */
    function StableId(): string {
      if uriSans != [] then uriSans[0] else subject
    }
  }

  const NoIdentity := Identity(false, "", [])

  type Headers = seq<(string, string)>

  datatype Request = Request(
    verb: string,
    pathAndQuery: string,
    headers: Headers,
    body: string,
    identity: Identity)
  {
    function Path(): string {
      PathOf(pathAndQuery)
    }
  }

  /** The text before the first `?`. */
  function PathOf(pathAndQuery: string): string {
    var r := SplitOnce(pathAndQuery, '?');
    if r.Some? then r.value.0 else pathAndQuery
  }

  datatype Method = GET | PUT | POST | DELETE | HEAD

  function ParseMethod(m: string): Option<Method> {
    if m == "GET" then Some(GET)
    else if m == "PUT" then Some(PUT)
    else if m == "POST" then Some(POST)
    else if m == "DELETE" then Some(DELETE)
    else if m == "HEAD" then Some(HEAD)
    else None
  }

  datatype Endpoint =
    | IngestDoc | IngestBulk | GetById | DeleteById | Search | Count | MultiGet | MultiSearch
    | DeleteByQuery | Cursor | Admin | Unknown
  {
    /** The endpoints that mutate documents. */
    predicate IsWrite() {
      IngestDoc? || IngestBulk? || DeleteById? || DeleteByQuery?
    }
  }

  datatype Classified = Classified(index: string, endpoint: Endpoint, docId: Option<string>)

  // ----- classification -----

  function TrimLeft(s: string, c: char): string {
    if s != "" && s[0] == c then TrimLeft(s[1..], c) else s
  }

  function TrimRight(s: string, c: char): string {
    if s != "" && s[|s| - 1] == c then TrimRight(s[..|s| - 1], c) else s
  }

  function NonEmpty(parts: seq<string>): seq<string> {
    if parts == [] then []
    else (if parts[0] == "" then [] else [parts[0]]) + NonEmpty(parts[1..])
  }

  function Segments(path: string): seq<string> {
    NonEmpty(Split(TrimRight(TrimLeft(path, '/'), '/'), '/'))
  }

  predicate IsAdminRoot(seg: string) {
    seg in {"_cat", "_cluster", "_nodes", "_aliases", "_tasks", "_snapshot"}
  }

  function DocEndpoint(m: Method, verb: string): Endpoint {
    if verb == "_doc" && (m == GET || m == HEAD) then GetById
    else if verb == "_doc" && m == DELETE then DeleteById
    else IngestDoc
  }

  function IndexScoped(m: Method, index: string, verb: string, rest: seq<string>): Classified {
    var docId := if rest == [] then None else Some(rest[0]);
    if verb == "_doc" || verb == "_create" || verb == "_update" then
      Classified(index, DocEndpoint(m, verb), docId)
    else if verb == "_bulk" then Classified(index, IngestBulk, None)
    else if verb == "_search" then Classified(index, Search, None)
    else if verb == "_count" then Classified(index, Count, None)
    else if verb == "_mget" then Classified(index, MultiGet, None)
    else if verb == "_msearch" then Classified(index, MultiSearch, None)
    else if verb == "_delete_by_query" then Classified(index, DeleteByQuery, None)
    else if verb == "_pit" then Classified(index, Cursor, None)
    else Classified(index, Unknown, None)
  }

  function ClassifySegments(m: Method, segs: seq<string>): Classified {
    if segs == [] then Classified("", Unknown, None)
    else if segs == ["_bulk"] then Classified("", IngestBulk, None)
    else if segs == ["_mget"] then Classified("", MultiGet, None)
    else if segs == ["_msearch"] then Classified("", MultiSearch, None)
    else if segs == ["_search"] then Classified("", Search, None)
    else if segs == ["_count"] then Classified("", Count, None)
    else if |segs| >= 2 && segs[0] == "_search" && segs[1] == "scroll" then Classified("", Cursor, None)
    else if IsAdminRoot(segs[0]) then Classified("", Admin, None)
    else if |segs| >= 2 then IndexScoped(m, segs[0], segs[1], segs[2..])
    else Classified(segs[0], Unknown, None)
  }

  function Classify(m: Method, path: string): Classified {
    ClassifySegments(m, Segments(path))
  }

  // ----- the routing context -----

  datatype Ctx = Ctx(
    verb: Method,
    endpoint: Endpoint,
    logicalIndex: string,
    docId: Option<string>,
    headers: Headers,
    principal: string,
    body: string)

  const ANONYMOUS := "anonymous"

  function PrincipalOf(id: Identity): string {
    if id.presented && id.StableId() != "" then id.StableId() else ANONYMOUS
  }

  /** The routing context of a request; None for a method the proxy does not handle. */
  function FromFilter(req: Request): Option<Ctx> {
    var m := ParseMethod(req.verb);
    if m.None? then None else
      var c := Classify(m.value, req.Path());
      Some(Ctx(m.value, c.endpoint, c.index, c.docId, req.headers, PrincipalOf(req.identity), req.body))
  }

  // ----- paths of one index and one verb -----

  /** A name that is one path segment. */
  predicate Plain(s: string) {
    s != "" && Free(s, '/') && Free(s, '?')
  }

  lemma {:induction false} SegmentsPlain(s: string)
    requires s != "" && Free(s, '/')
    ensures TrimLeft(s, '/') == s && TrimRight(s, '/') == s
    ensures Split(s, '/') == [s]
  {
    assert s[0] in s && s[|s| - 1] in s;
    SplitFree(s, '/');
  }

  /** A leading slash is trimmed; a segment without slashes ends at the next one. */
  lemma Segments2(a: string, b: string)
    requires a != "" && Free(a, '/') && b != "" && Free(b, '/')
    ensures Segments("/" + a + "/" + b) == [a, b]
  {
    var t := a + ['/'] + b;
    assert ("/" + a + "/" + b)[1..] == t;
    assert t[0] == a[0] && a[0] in a;
    assert TrimLeft("/" + a + "/" + b, '/') == t;
    assert t[|t| - 1] == b[|b| - 1] && b[|b| - 1] in b;
    SplitAt(a, '/', b);
    SegmentsPlain(b);
    NonEmptyAll([a, b]);
  }

  lemma Segments3(a: string, b: string, c: string)
    requires a != "" && Free(a, '/') && b != "" && Free(b, '/') && c != "" && Free(c, '/')
    ensures Segments("/" + a + "/" + b + "/" + c) == [a, b, c]
  {
    var u := b + ['/'] + c;
    var t := a + ['/'] + u;
    assert ("/" + a + "/" + b + "/" + c)[1..] == t;
    assert t[0] == a[0] && a[0] in a;
    assert TrimLeft("/" + a + "/" + b + "/" + c, '/') == t;
    assert t[|t| - 1] == c[|c| - 1] && c[|c| - 1] in c;
    SplitAt(a, '/', u);
    SplitAt(b, '/', c);
    SegmentsPlain(c);
    NonEmptyAll([a, b, c]);
  }

  lemma SegmentsTrailing(a: string, b: string)
    requires a != "" && Free(a, '/') && b != "" && Free(b, '/')
    ensures Segments("/" + a + "/" + b + "/") == [a, b]
  {
    var s := "/" + a + "/" + b + "/";
    var t := a + ['/'] + b + ['/'];
    assert s[1..] == t;
    assert t[0] == a[0] && a[0] in a;
    assert TrimLeft(s, '/') == t;
    assert t[..|t| - 1] == a + ['/'] + b;
    Segments2(a, b);
    assert ("/" + a + "/" + b)[1..] == a + ['/'] + b;
    assert TrimLeft("/" + a + "/" + b, '/') == a + ['/'] + b;
    assert TrimRight(t, '/') == TrimRight(a + ['/'] + b, '/');
  }

  lemma {:induction false} NonEmptyAll(parts: seq<string>)
    requires forall i :: 0 <= i < |parts| ==> parts[i] != ""
    ensures NonEmpty(parts) == parts
  {
    if parts != [] { NonEmptyAll(parts[1..]); }
  }

  lemma {:induction false} TrimLeftKeeps(s: string, c: char, x: char)
    ensures Free(s, x) ==> Free(TrimLeft(s, c), x)
  {
    if s != "" && s[0] == c { TrimLeftKeeps(s[1..], c, x); }
  }

  lemma {:induction false} TrimRightKeeps(s: string, c: char, x: char)
    ensures Free(s, x) ==> Free(TrimRight(s, c), x)
  {
    if s != "" && s[|s| - 1] == c { TrimRightKeeps(s[..|s| - 1], c, x); }
  }

  lemma {:induction false} SplitPieces(s: string, c: char, x: char)
    ensures forall i :: 0 <= i < |Split(s, c)| ==> Free(Split(s, c)[i], c)
    ensures Free(s, x) ==> forall i :: 0 <= i < |Split(s, c)| ==> Free(Split(s, c)[i], x)
    decreases |s|
  {
    var r := SplitOnce(s, c);
    if r.Some? { SplitPieces(r.value.1, c, x); }
  }

  lemma {:induction false} NonEmptyKeeps(parts: seq<string>, x: char)
    requires forall i :: 0 <= i < |parts| ==> Free(parts[i], x)
    ensures forall i :: 0 <= i < |NonEmpty(parts)| ==> Free(NonEmpty(parts)[i], x)
  {
    if parts != [] { NonEmptyKeeps(parts[1..], x); }
  }

  /** A segment never holds a slash, nor a character that the path does not hold. */
  lemma SegmentsClean(path: string, x: char)
    ensures forall i :: 0 <= i < |Segments(path)| ==> Free(Segments(path)[i], '/')
    ensures Free(path, x) ==> forall i :: 0 <= i < |Segments(path)| ==> Free(Segments(path)[i], x)
  {
    TrimLeftKeeps(path, '/', x);
    var t := TrimLeft(path, '/');
    TrimRightKeeps(t, '/', x);
    var u := TrimRight(t, '/');
    SplitPieces(u, '/', x);
    NonEmptyKeeps(Split(u, '/'), '/');
    if Free(path, x) { NonEmptyKeeps(Split(u, '/'), x); }
  }

  lemma Segments1(a: string)
    requires a != "" && Free(a, '/')
    ensures Segments("/" + a) == [a]
  {
    assert ("/" + a)[1..] == a;
    SegmentsPlain(a);
    NonEmptyAll([a]);
  }
}
