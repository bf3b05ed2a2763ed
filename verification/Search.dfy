/** Search, count and msearch isolation: a client's query, wrapped with the partition filter
    and run on the shared index, finds exactly what the bare query finds on the tenant's
    private store. Clauses other than `bool`, `term` and `match_all` are any test at all. */
module Search {
  import opened Common
  import opened Json
  import opened Rewrite
  import opened Ndjson
  import opened Adapter
  import opened Transform
  import opened Response
  import opened Route
  import opened Shared
  import opened Wire
  import opened Replies
  import opened Runs
  import Demux

  /** How the engine judges a clause this model does not spell out. */
  type Leaf = (Json, Json) -> bool

  // ----- queries -----

  predicate TermHolds(doc: Json, field: string, v: Json) {
    doc.Obj? && Get(doc.fields, field) == Some(v)
  }

  predicate IsTerm(q: Json) {
    q.Obj? && |q.fields| == 1 && q.fields[0].0 == "term" && q.fields[0].1.Obj? && |q.fields[0].1.fields| == 1
  }

  predicate IsBool(q: Json) {
    q.Obj? && |q.fields| == 1 && q.fields[0].0 == "bool" && q.fields[0].1.Obj?
  }

  predicate IsMatchAll(q: Json) {
    q.Obj? && |q.fields| == 1 && q.fields[0].0 == "match_all"
  }

  predicate Eval(leaf: Leaf, q: Json, doc: Json)
    decreases q, 1
  {
    if IsMatchAll(q) then true
    else if IsTerm(q) then
      var term := q.fields[0].1.fields[0];
      TermHolds(doc, term.0, term.1)
    else if IsBool(q) then
      var fs := q.fields[0].1.fields;
      BoolHolds(leaf, fs, !Has(fs, "must") && !Has(fs, "filter"), doc)
    else leaf(q, doc)
  }

  /** Every clause list of a `bool`; `should` is required only when nothing else is. */
  predicate BoolHolds(leaf: Leaf, fs: Fields, needShould: bool, doc: Json)
    decreases fs, 1
  {
    fs == [] || (ClauseHolds(leaf, fs[0], needShould, doc) && BoolHolds(leaf, fs[1..], needShould, doc))
  }

  predicate ClauseHolds(leaf: Leaf, f: (string, Json), needShould: bool, doc: Json)
    decreases f
  {
    if f.0 == "must" || f.0 == "filter" then
      if f.1.Arr? then AllHold(leaf, f.1.items, doc) else Eval(leaf, f.1, doc)
    else if f.0 == "must_not" then
      if f.1.Arr? then !AnyHolds(leaf, f.1.items, doc) else !Eval(leaf, f.1, doc)
    else if f.0 == "should" && needShould then
      if f.1.Arr? then AnyHolds(leaf, f.1.items, doc) else Eval(leaf, f.1, doc)
    else true
  }

  predicate AllHold(leaf: Leaf, qs: seq<Json>, doc: Json)
    decreases qs, 0
  {
    qs == [] || (Eval(leaf, qs[0], doc) && AllHold(leaf, qs[1..], doc))
  }

  predicate AnyHolds(leaf: Leaf, qs: seq<Json>, doc: Json)
    decreases qs, 0
  {
    qs != [] && (Eval(leaf, qs[0], doc) || AnyHolds(leaf, qs[1..], doc))
  }

  // ----- the wrapped query -----

  lemma {:induction false} TermsHold(leaf: Leaf, terms: Fields, doc: Json)
    ensures AllHold(leaf, TermClauses(terms), doc)
            <==> forall i :: 0 <= i < |terms| ==> TermHolds(doc, terms[i].0, terms[i].1)
  {
    if terms != [] {
      TermsHold(leaf, terms[1..], doc);
      var clause := Obj([("term", Obj([terms[0]]))]);
      assert IsTerm(clause);
      assert Eval(leaf, clause, doc) <==> TermHolds(doc, terms[0].0, terms[0].1);
    }
  }

  lemma BoolPair(leaf: Leaf, a: (string, Json), b: (string, Json), doc: Json)
    ensures BoolHolds(leaf, [a, b], false, doc) <==>
            ClauseHolds(leaf, a, false, doc) && ClauseHolds(leaf, b, false, doc)
  {
    assert [a, b][1..] == [b] && [b][1..] == [];
    assert BoolHolds(leaf, [b], false, doc) <==> ClauseHolds(leaf, b, false, doc) && BoolHolds(leaf, [], false, doc);
  }

  /** A wrapped query holds of a document exactly when the client's query and every term do. */
  lemma WrappedHolds(leaf: Leaf, q: Json, terms: Fields, doc: Json)
    ensures Eval(leaf, Wrapped(q, terms), doc) <==>
            Eval(leaf, q, doc) && forall i :: 0 <= i < |terms| ==> TermHolds(doc, terms[i].0, terms[i].1)
  {
    var must, filter := ("must", Arr([q])), ("filter", Arr(TermClauses(terms)));
    var fs := [must, filter];
    TermsHold(leaf, terms, doc);
    assert AllHold(leaf, [q], doc) <==> Eval(leaf, q, doc) by { assert [q][1..] == []; }
    assert ClauseHolds(leaf, must, false, doc) <==> Eval(leaf, q, doc);
    assert ClauseHolds(leaf, filter, false, doc) <==> AllHold(leaf, TermClauses(terms), doc);
    BoolPair(leaf, must, filter, doc);
    assert Has(fs, "must");
    assert IsBool(Wrapped(q, terms));
  }

  // ----- matches -----

  function Matches(docs: Docs, cluster: string, index: string, leaf: Leaf, q: Json): set<Key> {
    set k | k in docs && k.cluster == cluster && k.index == index && Eval(leaf, q, docs[k])
  }

  function OwnMatches(own: Private, leaf: Leaf, q: Json): set<string> {
    set x | x in own && Eval(leaf, q, own[x])
  }

  function KeySet(sc: Scope, t: string, xs: set<string>): set<Key> {
    set x | x in xs :: sc.KeyOf(t, x)
  }

  /** The query looks only at the client's own fields. */
  ghost predicate Blind(sc: Scope, t: string, leaf: Leaf, q: Json) {
    forall doc :: sc.Storable(doc) ==> Eval(leaf, q, sc.Stamp(t, doc)) == Eval(leaf, q, doc)
  }

  function Terms(sc: Scope, t: string): Fields {
    [(sc.tenancy.injectField, Str(t))]
  }

  lemma SharedTerms(sc: Scope, t: string, index: string)
    requires sc.Sound()
    ensures FilterTerms(sc.tenancy.Decide(t, index).transform, t) == Terms(sc, t)
  {
    var fields := [InjectedField(sc.tenancy.injectField, PartitionId)];
    assert fields[1..] == [];
    assert PartitionTerms(fields[1..], t) == [];
    assert Terms(sc, t) + [] == Terms(sc, t);
  }

  lemma StampedOwner(sc: Scope, t: string, u: string, doc: Json)
    requires sc.Storable(doc)
    ensures TermHolds(sc.Stamp(u, doc), sc.tenancy.injectField, Str(t)) <==> t == u
  {
    GetConcat(doc.fields, [(sc.tenancy.injectField, Str(u))], sc.tenancy.injectField);
  }

  /** Isolation for every query whatever it mentions: a wrapped query finds only documents of
      the tenant it was wrapped for. */
  lemma SearchIsolated(sc: Scope, docs: Docs, privs: Privates, t: string, leaf: Leaf, q: Json, k: Key)
    requires Represents(sc, docs, privs)
    requires k in docs && Eval(leaf, Wrapped(q, Terms(sc, t)), docs[k])
    ensures exists x :: Holds(privs, t, x) && k == sc.KeyOf(t, x)
  {
    WrappedHolds(leaf, q, Terms(sc, t), docs[k]);
    var u, x :| Holds(privs, u, x) && k == sc.KeyOf(u, x);
    assert TermHolds(docs[k], Terms(sc, t)[0].0, Terms(sc, t)[0].1);
    StampedOwner(sc, t, u, privs[u][x]);
  }

  lemma OwnDocumentFound(sc: Scope, docs: Docs, privs: Privates, t: string, leaf: Leaf, q: Json, x: string)
    requires Represents(sc, docs, privs) && Holds(privs, t, x) && Blind(sc, t, leaf, q)
    ensures sc.KeyOf(t, x) in docs
    ensures Eval(leaf, Wrapped(q, Terms(sc, t)), docs[sc.KeyOf(t, x)]) <==> Eval(leaf, q, privs[t][x])
  {
    WrappedHolds(leaf, q, Terms(sc, t), docs[sc.KeyOf(t, x)]);
    StampedOwner(sc, t, t, privs[t][x]);
  }

  /** Search refinement: in every represented store, the wrapped query on the shared index
      matches exactly the keys of the documents the client's query matches privately. */
  lemma SearchRefines(sc: Scope, docs: Docs, privs: Privates, t: string, leaf: Leaf, q: Json)
    requires Represents(sc, docs, privs) && t in privs && Blind(sc, t, leaf, q)
    ensures Matches(docs, sc.tenancy.ClusterFor(t), sc.tenancy.sharedIndex, leaf, Wrapped(q, Terms(sc, t)))
            == KeySet(sc, t, OwnMatches(privs[t], leaf, q))
  {
    var w := Wrapped(q, Terms(sc, t));
    forall k | k in docs && Eval(leaf, w, docs[k]) ensures k in KeySet(sc, t, OwnMatches(privs[t], leaf, q)) {
      SearchIsolated(sc, docs, privs, t, leaf, q, k);
      var x :| Holds(privs, t, x) && k == sc.KeyOf(t, x);
      OwnDocumentFound(sc, docs, privs, t, leaf, q, x);
    }
    forall x | x in OwnMatches(privs[t], leaf, q) ensures
      sc.KeyOf(t, x) in Matches(docs, sc.tenancy.ClusterFor(t), sc.tenancy.sharedIndex, leaf, w)
    {
      assert Holds(privs, t, x);
      OwnDocumentFound(sc, docs, privs, t, leaf, q, x);
    }
  }

  lemma KeySetSize(sc: Scope, t: string, xs: set<string>)
    ensures |KeySet(sc, t, xs)| == |xs|
  {
    if xs != {} {
      var x :| x in xs;
      KeySetSize(sc, t, xs - {x});
      forall y | y in xs - {x} ensures sc.KeyOf(t, y) != sc.KeyOf(t, x) {
        StripPhysical(sc.shape, t, x);
        StripPhysical(sc.shape, t, y);
      }
      assert KeySet(sc, t, xs) == KeySet(sc, t, xs - {x}) + {sc.KeyOf(t, x)};
    }
  }

  /** Count refinement: the shared count of the wrapped query is the private count. */
  lemma CountRefines(sc: Scope, docs: Docs, privs: Privates, t: string, leaf: Leaf, q: Json)
    requires Represents(sc, docs, privs) && t in privs && Blind(sc, t, leaf, q)
    ensures |Matches(docs, sc.tenancy.ClusterFor(t), sc.tenancy.sharedIndex, leaf, Wrapped(q, Terms(sc, t)))|
            == |OwnMatches(privs[t], leaf, q)|
  {
    SearchRefines(sc, docs, privs, t, leaf, q);
    KeySetSize(sc, t, OwnMatches(privs[t], leaf, q));
  }

  // ----- what makes a query blind -----

  /** No `term` of the query names the field. */
  predicate Avoids(q: Json, field: string)
    decreases q, 1
  {
    if IsMatchAll(q) then true
    else if IsTerm(q) then q.fields[0].1.fields[0].0 != field
    else if IsBool(q) then FieldsAvoid(q.fields[0].1.fields, field)
    else true
  }

  predicate FieldsAvoid(fs: Fields, field: string)
    decreases fs, 1
  {
    fs == [] || (ClauseAvoids(fs[0], field) && FieldsAvoid(fs[1..], field))
  }

  predicate ClauseAvoids(f: (string, Json), field: string)
    decreases f
  {
    if f.1.Arr? then ItemsAvoid(f.1.items, field) else Avoids(f.1, field)
  }

  predicate ItemsAvoid(qs: seq<Json>, field: string)
    decreases qs, 0
  {
    qs == [] || (Avoids(qs[0], field) && ItemsAvoid(qs[1..], field))
  }

  /** The engine judges this clause of its own alike on a document and on its stamped form. */
  ghost predicate LeafBlind(sc: Scope, t: string, leaf: Leaf, q: Json) {
    forall doc :: sc.Storable(doc) ==> leaf(q, sc.Stamp(t, doc)) == leaf(q, doc)
  }

  /** Every clause of the query that is the engine's own is one of these. */
  ghost predicate LeavesBlind(sc: Scope, t: string, leaf: Leaf, q: Json)
    decreases q, 1
  {
    if IsMatchAll(q) || IsTerm(q) then true
    else if IsBool(q) then FieldLeavesBlind(sc, t, leaf, q.fields[0].1.fields)
    else LeafBlind(sc, t, leaf, q)
  }

  ghost predicate FieldLeavesBlind(sc: Scope, t: string, leaf: Leaf, fs: Fields)
    decreases fs, 1
  {
    fs == [] || (ClauseLeavesBlind(sc, t, leaf, fs[0]) && FieldLeavesBlind(sc, t, leaf, fs[1..]))
  }

  ghost predicate ClauseLeavesBlind(sc: Scope, t: string, leaf: Leaf, f: (string, Json))
    decreases f
  {
    if f.1.Arr? then ItemLeavesBlind(sc, t, leaf, f.1.items) else LeavesBlind(sc, t, leaf, f.1)
  }

  ghost predicate ItemLeavesBlind(sc: Scope, t: string, leaf: Leaf, qs: seq<Json>)
    decreases qs, 0
  {
    qs == [] || (LeavesBlind(sc, t, leaf, qs[0]) && ItemLeavesBlind(sc, t, leaf, qs[1..]))
  }

  lemma {:induction false} AvoidingEval(sc: Scope, t: string, leaf: Leaf, q: Json, doc: Json)
    requires LeavesBlind(sc, t, leaf, q) && Avoids(q, sc.tenancy.injectField) && sc.Storable(doc)
    ensures Eval(leaf, q, sc.Stamp(t, doc)) == Eval(leaf, q, doc)
    decreases q, 1
  {
    if IsMatchAll(q) {
    } else if IsTerm(q) {
      GetConcat(doc.fields, Terms(sc, t), q.fields[0].1.fields[0].0);
    } else if IsBool(q) {
      var fs := q.fields[0].1.fields;
      AvoidingBool(sc, t, leaf, fs, !Has(fs, "must") && !Has(fs, "filter"), doc);
    }
  }

  lemma {:induction false} AvoidingBool(sc: Scope, t: string, leaf: Leaf, fs: Fields, need: bool, doc: Json)
    requires FieldLeavesBlind(sc, t, leaf, fs) && FieldsAvoid(fs, sc.tenancy.injectField) && sc.Storable(doc)
    ensures BoolHolds(leaf, fs, need, sc.Stamp(t, doc)) == BoolHolds(leaf, fs, need, doc)
    decreases fs, 1
  {
    if fs != [] {
      AvoidingClause(sc, t, leaf, fs[0], need, doc);
      AvoidingBool(sc, t, leaf, fs[1..], need, doc);
    }
  }

  lemma {:induction false} AvoidingClause(sc: Scope, t: string, leaf: Leaf, f: (string, Json), need: bool, doc: Json)
    requires ClauseLeavesBlind(sc, t, leaf, f) && ClauseAvoids(f, sc.tenancy.injectField) && sc.Storable(doc)
    ensures ClauseHolds(leaf, f, need, sc.Stamp(t, doc)) == ClauseHolds(leaf, f, need, doc)
    decreases f
  {
    if f.1.Arr? {
      AvoidingItems(sc, t, leaf, f.1.items, doc);
    } else {
      AvoidingEval(sc, t, leaf, f.1, doc);
    }
  }

  lemma {:induction false} AvoidingItems(sc: Scope, t: string, leaf: Leaf, qs: seq<Json>, doc: Json)
    requires ItemLeavesBlind(sc, t, leaf, qs) && ItemsAvoid(qs, sc.tenancy.injectField) && sc.Storable(doc)
    ensures AllHold(leaf, qs, sc.Stamp(t, doc)) == AllHold(leaf, qs, doc)
    ensures AnyHolds(leaf, qs, sc.Stamp(t, doc)) == AnyHolds(leaf, qs, doc)
    decreases qs, 0
  {
    if qs != [] {
      AvoidingEval(sc, t, leaf, qs[0], doc);
      AvoidingItems(sc, t, leaf, qs[1..], doc);
    }
  }

  /** A query looks only at client fields when none of its terms names the isolation field and
      the engine's own clauses that occur in it do not see that field. */
  lemma AvoidingIsBlind(sc: Scope, t: string, leaf: Leaf, q: Json)
    requires LeavesBlind(sc, t, leaf, q) && Avoids(q, sc.tenancy.injectField)
    ensures Blind(sc, t, leaf, q)
  {
    forall doc | sc.Storable(doc) ensures Eval(leaf, q, sc.Stamp(t, doc)) == Eval(leaf, q, doc) {
      AvoidingEval(sc, t, leaf, q, doc);
    }
  }

  /** A single term is blind exactly when it does not ask for the tenant's own isolation value. */
  lemma TermBlindIff(sc: Scope, t: string, leaf: Leaf, field: string, v: Json)
    ensures Blind(sc, t, leaf, Obj([("term", Obj([(field, v)]))])) <==>
            (field, v) != (sc.tenancy.injectField, Str(t))
  {
    var q := Obj([("term", Obj([(field, v)]))]);
    assert IsTerm(q);
    forall doc | sc.Storable(doc)
      ensures Eval(leaf, q, sc.Stamp(t, doc)) == Eval(leaf, q, doc) <==> (field, v) != (sc.tenancy.injectField, Str(t))
    {
      GetConcat(doc.fields, Terms(sc, t), field);
      assert Eval(leaf, q, doc) <==> TermHolds(doc, field, v);
      assert Eval(leaf, q, sc.Stamp(t, doc)) <==> TermHolds(sc.Stamp(t, doc), field, v);
    }
    assert sc.Storable(Obj([]));
  }

  // ----- the query on the wire -----

  /** The query a search body asks; a bodyless search asks for everything. */
  function ReadQuery(body: string): Option<Json> {
    if body == "" then Some(MATCH_ALL) else
      match ParseObject(body)
      case Err(_) => None
      case Ok(fs) => Some(QueryIn(fs))
  }

  /** A body without a query, an empty one or an object that names none, asks for every document. */
  lemma NoQueryMatchesAll(leaf: Leaf, fs: Fields, doc: Json)
    requires ValidFields(fs) && !Has(fs, "query")
    ensures ReadQuery("").Some? && Eval(leaf, ReadQuery("").value, doc)
    ensures ReadQuery(Print(Obj(fs))).Some? && Eval(leaf, ReadQuery(Print(Obj(fs))).value, doc)
  {
    ParsePrint(Obj(fs));
    assert ParseObject("").Err?;
    assert ParseObject(Print(Obj(fs))) == Ok(fs);
  }

  lemma EmptyObject()
    ensures ParseObject("{}") == Ok([])
  {
    ParsePrint(Obj([]));
  }

  /** The forwarded search body asks the client's query under the partition filter, and a body
      that is not an object is refused. */
  lemma FilteredQueryRead(sc: Scope, t: string, body: string)
    ensures var r := FilteredQuery(body, Terms(sc, t));
            match ReadQuery(body)
            case None => r.Err?
            case Some(q) => r.Ok? && ReadQuery(r.value) == Some(Wrapped(q, Terms(sc, t)))
  {
    var base := if body == "" then "{}" else body;
    EmptyObject();
    if WrapQuery(base, Terms(sc, t)).Ok? {
      Demux.WrapQueryRead(base, Terms(sc, t));
      var fs := ParseObject(base).value;
      GetInsert(fs, "query", Wrapped(QueryIn(fs), Terms(sc, t)), "query");
      assert ParseObject("").Err?;
    }
  }

  lemma VerbPath(index: string, verb: string)
    requires PlainIndex(index) && verb in {"_search", "_count"}
    ensures Classify(POST, PathOf("/" + index + "/" + verb)) ==
            Classified(index, if verb == "_search" then Endpoint.Search else Count, None)
  {
    var path := "/" + index + "/" + verb;
    assert Free(verb, '?') && Free(verb, '/') && verb != "";
    assert Free(path, '?');
    SplitQuery(path, "");
    assert path + "" == path;
    Segments2(index, verb);
    VerbSegments(index, verb);
  }

  lemma VerbSegments(index: string, verb: string)
    requires !IsAdminRoot(index) && verb in {"_search", "_count"}
    ensures ClassifySegments(POST, [index, verb]) ==
            Classified(index, if verb == "_search" then Endpoint.Search else Count, None)
  {
    assert verb != "scroll" && verb != "_doc" && verb != "_create" && verb != "_update" && verb != "_bulk";
  }

  /** A client's search or count reaches the shared index as the same request for the wrapped
      query; a malformed body is answered 400 and not forwarded. */
  lemma SearchForwarded(sc: Scope, t: string, ctx: Ctx)
    requires sc.Sound() && sc.tenancy.ResolvePartition(ctx) == Ok(t)
    requires ctx.endpoint == Endpoint.Search || ctx.endpoint == Count
    ensures var forward := Prepare(sc.tenancy.AsRouter(), ctx);
            match ReadQuery(ctx.body)
            case None => forward.Immediate? && forward.reply.status == 400
            case Some(q) =>
              && forward.Upstream? && forward.f.cluster == sc.tenancy.ClusterFor(t) && forward.f.verb == "POST"
              && Classify(POST, PathOf(forward.f.path)) == Classified(sc.tenancy.sharedIndex, ctx.endpoint, None)
              && ReadQuery(forward.f.body) == Some(Wrapped(q, Terms(sc, t)))
  {
    SharedTerms(sc, t, ctx.logicalIndex);
    FilteredQueryRead(sc, t, ctx.body);
    VerbPath(sc.tenancy.sharedIndex, if ctx.endpoint == Count then "_count" else "_search");
  }

  /** Every position of an msearch: its header is pinned to the shared index and its query is
      the client's under the filter, so at each position the shared matches are the private
      ones. */
  lemma MsearchRefines(sc: Scope, docs: Docs, privs: Privates, t: string, index: string,
                       body: string, leaf: Leaf, i: nat)
    requires sc.Sound() && Represents(sc, docs, privs) && t in privs
    requires Demux.RewriteMsearch(sc.tenancy.Decide(t, index), body).Ok?
    requires ParseMsearch(body).Ok? && i < |ParseMsearch(body).value|
    requires ReadQuery(ParseMsearch(body).value[i].1).Some? ==>
               Blind(sc, t, leaf, ReadQuery(ParseMsearch(body).value[i].1).value)
    ensures var p := sc.tenancy.Decide(t, index);
            var asked := ReadQuery(ParseMsearch(body).value[i].1);
            var again := ParseMsearch(Demux.RewriteMsearch(p, body).value);
            && again.Ok? && |again.value| == |ParseMsearch(body).value| && asked.Some?
            && ParseObject(again.value[i].0) == Ok([("index", Str(sc.tenancy.sharedIndex))])
            && ReadQuery(again.value[i].1).Some?
            && Matches(docs, sc.tenancy.ClusterFor(t), sc.tenancy.sharedIndex, leaf, ReadQuery(again.value[i].1).value)
               == KeySet(sc, t, OwnMatches(privs[t], leaf, asked.value))
  {
    var p := sc.tenancy.Decide(t, index);
    var items := ParseMsearch(body).value;
    Demux.RewrittenMsearchRead(p, body);
    SharedTerms(sc, t, index);
    Demux.HeaderLineRead(p);
    FilteredQueryRead(sc, t, items[i].1);
    SearchRefines(sc, docs, privs, t, leaf, ReadQuery(items[i].1).value);
  }

  // ----- the hits on the way back -----

  /** A list of the set's elements, each once, in any order. */
  ghost predicate Lists<T(!new)>(xs: seq<T>, s: set<T>) {
    (forall i, j :: 0 <= i < j < |xs| ==> xs[i] != xs[j]) && (forall x :: x in xs <==> x in s)
  }

  /** One hit on a tenant's stored document: its id is the physical one, its source, if the
      query asked for one, the stamped document; score, sort values, highlights and whatever
      else it carries are arbitrary. */
  predicate HitOn(sc: Scope, t: string, index: string, hit: Json, x: string, doc: Json) {
    && hit.Obj? && doc.Obj?
    && AboutStored(hit.fields, sc.tenancy.Decide(t, index), x,
                   if Has(hit.fields, "_source") then Some(doc.fields) else None)
  }

  /** The same hit on the tenant's own document. */
  function ClientHit(index: string, hit: Json, x: string, doc: Json): Json {
    if !hit.Obj? || !doc.Obj? then hit
    else Obj(ClientFields(hit.fields, index, x, if Has(hit.fields, "_source") then Some(doc.fields) else None))
  }

  /** The hits are on these documents, in this order. */
  predicate HitsOn(sc: Scope, t: string, index: string, hits: seq<Json>, xs: seq<string>, own: Private) {
    |hits| == |xs| && forall i :: 0 <= i < |xs| ==> xs[i] in own && HitOn(sc, t, index, hits[i], xs[i], own[xs[i]])
  }

  function ClientHits(index: string, hits: seq<Json>, xs: seq<string>, own: Private): (r: seq<Json>)
    requires |hits| == |xs| && forall i :: 0 <= i < |xs| ==> xs[i] in own
    ensures |r| == |hits|
    ensures forall i :: 0 <= i < |hits| ==> r[i] == ClientHit(index, hits[i], xs[i], own[xs[i]])
  {
    seq(|hits|, i requires 0 <= i < |hits| => ClientHit(index, hits[i], xs[i], own[xs[i]]))
  }

  lemma HitsShown(sc: Scope, t: string, index: string, hits: seq<Json>, xs: seq<string>, own: Private)
    requires HitsOn(sc, t, index, hits, xs, own)
    ensures HitsShaped(hits, ViewOf(sc.tenancy.Decide(t, index), index)) == ClientHits(index, hits, xs, own)
  {
    var v := ViewOf(sc.tenancy.Decide(t, index), index);
    forall i | 0 <= i < |hits| ensures HitShaped(hits[i], v) == ClientHit(index, hits[i], xs[i], own[xs[i]]) {
      assert HitOn(sc, t, index, hits[i], xs[i], own[xs[i]]);
      var doc := own[xs[i]];
      HitInverse(hits[i].fields, sc.tenancy.Decide(t, index), xs[i],
                 if Has(hits[i].fields, "_source") then Some(doc.fields) else None, index);
    }
  }

  /** A hit carrying index, id, source and any other fields is a hit on the document: the
      hypothesis of the search theorems is what a search of the shared index answers. */
  lemma AnyHitIsOn(sc: Scope, t: string, index: string, x: string, doc: Json, more: Fields)
    requires sc.Sound() && sc.Storable(doc) && !Has(more, "_id") && !Has(more, "_source")
    ensures HitOn(sc, t, index,
                  Obj([("_id", Str(sc.shape.Physical(t, x)))] + ([("_source", sc.Stamp(t, doc))] + more)), x, doc)
  {
    var id, source := ("_id", Str(sc.shape.Physical(t, x))), ("_source", sc.Stamp(t, doc));
    var fs := [id] + ([source] + more);
    var rest := [source] + more;
    assert fs[1..] == rest && rest[1..] == more && rest[0] == source;
    assert Get(rest, "_source") == Some(source.1);
    assert Get(fs, "_source") == Some(source.1) && Has(fs, "_source");
    StampValid(sc, t, doc);
    SharedMapId(sc, t, index, x);
    SharedInjects(sc, t);
  }

  /** The client who sent `ctx` receives `shown` when the upstream answers `top`. */
  predicate ShownAs(sc: Scope, ctx: Ctx, top: Json, shown: Json) {
    ShapeReadResponse(sc.tenancy.AsRouter(), ctx, Print(top)) == Some(Print(shown))
  }

  /** A search answer with its hits replaced and everything else kept. */
  function WithHits(top: Json, hits: seq<Json>): Json
    requires InnerHits(top).Some?
  {
    Obj(Insert(top.fields, "hits", WithArray(InnerHits(top).value.0, "hits", hits)))
  }

  /** The shared index lists the keys of `xs` as the matches of the wrapped query. */
  ghost predicate FoundBy(sc: Scope, docs: Docs, t: string, leaf: Leaf, q: Json, xs: seq<string>) {
    Lists(KeysOf(sc, t, xs),
          Matches(docs, sc.tenancy.ClusterFor(t), sc.tenancy.sharedIndex, leaf, Wrapped(q, Terms(sc, t))))
  }

  lemma MatchesListed(sc: Scope, docs: Docs, privs: Privates, t: string, leaf: Leaf, q: Json, xs: seq<string>)
    requires Represents(sc, docs, privs) && t in privs && Blind(sc, t, leaf, q)
    requires FoundBy(sc, docs, t, leaf, q, xs)
    ensures Lists(xs, OwnMatches(privs[t], leaf, q))
    ensures forall i :: 0 <= i < |xs| ==> xs[i] in privs[t] && sc.Storable(privs[t][xs[i]])
  {
    SearchRefines(sc, docs, privs, t, leaf, q);
    ListsOwn(sc, t, xs, OwnMatches(privs[t], leaf, q));
    forall i | 0 <= i < |xs| ensures xs[i] in privs[t] && sc.Storable(privs[t][xs[i]]) {
      assert xs[i] in xs;
      assert Holds(privs, t, xs[i]);
    }
  }

  lemma AnswerShown(sc: Scope, t: string, index: string, top: Json, xs: seq<string>, own: Private)
    requires InnerHits(top).Some? && HitsOn(sc, t, index, InnerHits(top).value.1, xs, own)
    ensures SearchShaped(top, ViewOf(sc.tenancy.Decide(t, index), index))
            == WithHits(top, ClientHits(index, InnerHits(top).value.1, xs, own))
  {
    HitsShown(sc, t, index, InnerHits(top).value.1, xs, own);
  }

  /** The whole search answer. Whatever order the shared index lists its matches in, and
      whatever else the answer and each hit carry, the shaped body lists the private matches in
      the same order, each once, as the tenant's own documents, and keeps the rest. */
  lemma SearchShown(sc: Scope, docs: Docs, privs: Privates, t: string, ctx: Ctx, leaf: Leaf, q: Json,
                    top: Json, xs: seq<string>)
    requires sc.Sound() && Represents(sc, docs, privs) && t in privs && Blind(sc, t, leaf, q)
    requires ctx.endpoint == Endpoint.Search && sc.tenancy.ResolvePartition(ctx) == Ok(t)
    requires FoundBy(sc, docs, t, leaf, q, xs)
    requires Valid(top) && InnerHits(top).Some?
    requires HitsOn(sc, t, ctx.logicalIndex, InnerHits(top).value.1, xs, privs[t])
    ensures Lists(xs, OwnMatches(privs[t], leaf, q))
    ensures ShownAs(sc, ctx, top, WithHits(top, ClientHits(ctx.logicalIndex, InnerHits(top).value.1, xs, privs[t])))
  {
    MatchesListed(sc, docs, privs, t, leaf, q, xs);
    AnswerShown(sc, t, ctx.logicalIndex, top, xs, privs[t]);
    ParsePrint(top);
  }

  // ----- a multi-search on the way back -----

  /** One response of a multi-search lists the matches of its query; one without hits, an error
      for instance, is anything. */
  ghost predicate ResponseFound(sc: Scope, docs: Docs, own: Private, t: string, index: string, leaf: Leaf,
                                q: Json, response: Json, xs: seq<string>) {
    InnerHits(response).Some? ==>
      FoundBy(sc, docs, t, leaf, q, xs) && HitsOn(sc, t, index, InnerHits(response).value.1, xs, own)
  }

  function ClientResponse(index: string, response: Json, xs: seq<string>, own: Private): Json {
    if InnerHits(response).None? || |InnerHits(response).value.1| != |xs| || !(forall x :: x in xs ==> x in own)
    then response
    else WithHits(response, ClientHits(index, InnerHits(response).value.1, xs, own))
  }

  function ClientResponses(index: string, rs: seq<Json>, xss: seq<seq<string>>, own: Private): (r: seq<Json>)
    requires |rs| == |xss|
    ensures |r| == |rs| && forall i :: 0 <= i < |rs| ==> r[i] == ClientResponse(index, rs[i], xss[i], own)
  {
    seq(|rs|, i requires 0 <= i < |rs| => ClientResponse(index, rs[i], xss[i], own))
  }

  lemma ResponseShown(sc: Scope, docs: Docs, own: Private, t: string, index: string, leaf: Leaf,
                      q: Json, response: Json, xs: seq<string>)
    requires ResponseFound(sc, docs, own, t, index, leaf, q, response, xs)
    ensures SearchShaped(response, ViewOf(sc.tenancy.Decide(t, index), index)) == ClientResponse(index, response, xs, own)
  {
    if InnerHits(response).Some? {
      forall x | x in xs ensures x in own {
        var i :| 0 <= i < |xs| && xs[i] == x;
      }
      AnswerShown(sc, t, index, response, xs, own);
    }
  }

  lemma ResponsesShown(sc: Scope, docs: Docs, own: Private, t: string, index: string, leaf: Leaf,
                       qs: seq<Json>, rs: seq<Json>, xss: seq<seq<string>>)
    requires |qs| == |rs| == |xss|
    requires forall i :: 0 <= i < |qs| ==> ResponseFound(sc, docs, own, t, index, leaf, qs[i], rs[i], xss[i])
    ensures ResponsesShaped(rs, ViewOf(sc.tenancy.Decide(t, index), index)) == ClientResponses(index, rs, xss, own)
  {
    var v := ViewOf(sc.tenancy.Decide(t, index), index);
    forall i | 0 <= i < |rs| ensures SearchShaped(rs[i], v) == ClientResponse(index, rs[i], xss[i], own) {
      ResponseShown(sc, docs, own, t, index, leaf, qs[i], rs[i], xss[i]);
    }
  }

  /** The queries a multi-search body asks, position by position. */
  ghost predicate Asks(body: string, qs: seq<Json>) {
    && ParseMsearch(body).Ok? && |ParseMsearch(body).value| == |qs|
    && forall i :: 0 <= i < |qs| ==> ReadQuery(ParseMsearch(body).value[i].1) == Some(qs[i])
  }

  /** The private matches at every position that answered hits. */
  ghost predicate ListsEach(own: Private, leaf: Leaf, qs: seq<Json>, rs: seq<Json>, xss: seq<seq<string>>)
    requires |qs| == |rs| == |xss|
  {
    forall i :: 0 <= i < |qs| && InnerHits(rs[i]).Some? ==> Lists(xss[i], OwnMatches(own, leaf, qs[i]))
  }

  /** The whole multi-search answer: at every position that answers hits, the shared matches of
      the wrapped query are shown as the private matches of the query the client asked there, in
      the same order, each once; every other response, and everything beside the hits, is kept. */
  lemma MsearchShown(sc: Scope, docs: Docs, privs: Privates, t: string, ctx: Ctx, leaf: Leaf, qs: seq<Json>,
                     top: Json, rs: seq<Json>, xss: seq<seq<string>>)
    requires sc.Sound() && Represents(sc, docs, privs) && t in privs
    requires ctx.endpoint == MultiSearch && sc.tenancy.ResolvePartition(ctx) == Ok(t) && Asks(ctx.body, qs)
    requires |qs| == |rs| == |xss| && forall i :: 0 <= i < |qs| ==> Blind(sc, t, leaf, qs[i])
    requires Valid(top) && ArrayAt(top, "responses") == Some(rs)
    requires forall i :: 0 <= i < |qs| ==>
               ResponseFound(sc, docs, privs[t], t, ctx.logicalIndex, leaf, qs[i], rs[i], xss[i])
    ensures ListsEach(privs[t], leaf, qs, rs, xss)
    ensures ShownAs(sc, ctx, top, WithArray(top, "responses", ClientResponses(ctx.logicalIndex, rs, xss, privs[t])))
  {
    forall i | 0 <= i < |qs| && InnerHits(rs[i]).Some? ensures Lists(xss[i], OwnMatches(privs[t], leaf, qs[i])) {
      MatchesListed(sc, docs, privs, t, leaf, qs[i], xss[i]);
    }
    ResponsesShown(sc, docs, privs[t], t, ctx.logicalIndex, leaf, qs, rs, xss);
    MsearchPrinted(sc, t, ctx, top, rs);
  }

  lemma MsearchPrinted(sc: Scope, t: string, ctx: Ctx, top: Json, rs: seq<Json>)
    requires ctx.endpoint == MultiSearch && sc.tenancy.ResolvePartition(ctx) == Ok(t)
    requires Valid(top) && ArrayAt(top, "responses") == Some(rs)
    ensures ShownAs(sc, ctx, top,
                    WithArray(top, "responses",
                              ResponsesShaped(rs, ViewOf(sc.tenancy.Decide(t, ctx.logicalIndex), ctx.logicalIndex))))
  {
    ParsePrint(top);
  }

  lemma ListsOwn(sc: Scope, t: string, xs: seq<string>, s: set<string>)
    requires Lists(KeysOf(sc, t, xs), KeySet(sc, t, s))
    ensures Lists(xs, s)
  {
    var ks := KeysOf(sc, t, xs);
    forall i, j | 0 <= i < j < |xs| ensures xs[i] != xs[j] { assert ks[i] != ks[j]; }
    forall x ensures x in xs <==> x in s {
      if x in xs {
        var i :| 0 <= i < |xs| && xs[i] == x;
        assert ks[i] in ks;
        var y :| y in s && sc.KeyOf(t, y) == sc.KeyOf(t, x);
        StripPhysical(sc.shape, t, x);
        StripPhysical(sc.shape, t, y);
      }
      if x in s {
        assert sc.KeyOf(t, x) in ks;
        var i :| 0 <= i < |ks| && ks[i] == sc.KeyOf(t, x);
        StripPhysical(sc.shape, t, x);
        StripPhysical(sc.shape, t, xs[i]);
      }
    }
  }
}
