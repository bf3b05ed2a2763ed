/** The `_mget` and `_msearch` compilers (crates/evoxy-route/src/demux.rs): every operation
    is pinned to the one physical index of the decision. */
module Demux {
  import opened Common
  import opened Json
  import opened Rewrite
  import opened Ndjson
  import opened Transform

  // ----- mget -----

  function DocFields(p: Resolved, physical: string, routing: Option<string>): Fields {
    [("_index", Str(p.target.index))] + ([("_id", Str(physical))] + Optional("routing", routing))
  }

  function MgetDoc(p: Resolved, id: string): Result<Json, PrepareError> {
    var r :- PhysicalId(p.transform, p.partition, id);
    Ok(Obj(DocFields(p, r.0, r.1)))
  }

  function MgetDocs(p: Resolved, ids: seq<string>): Result<seq<Json>, PrepareError> {
    if ids == [] then Ok([]) else
      var head :- MgetDoc(p, ids[0]);
      var rest :- MgetDocs(p, ids[1..]);
      Ok([head] + rest)
  }

  function MgetBody(docs: seq<Json>): string {
    Print(Obj([("docs", Arr(docs))]))
  }

  function RewriteMget(p: Resolved, body: string): Result<string, PrepareError> {
    var ids :- Lift(ParseMget(body));
    var docs :- MgetDocs(p, ids);
    Ok(MgetBody(docs))
  }

  /** The service's loop over the parsed fetches. */
  method RewriteMgetLoop(p: Resolved, body: string) returns (r: Result<string, PrepareError>)
    ensures r == RewriteMget(p, body)
  {
    var parsed := ParseMget(body);
    if parsed.Err? {
      return Err(RewriteFailed(parsed.error));
    }
    var ids := parsed.value;
    var docs: seq<Json> := [];
    assert ids[0..] == ids;
    AfterCons(docs, [], MgetDocs(p, ids));
    for i := 0 to |ids|
      invariant MgetDocs(p, ids) == After(docs, MgetDocs(p, ids[i..]))
    {
      var mapped := PhysicalId(p.transform, p.partition, ids[i]);
      assert ids[i..][1..] == ids[i + 1..];
      if mapped.Err? {
        return Err(mapped.error);
      }
      var doc: Fields := [("_index", Str(p.target.index)), ("_id", Str(mapped.value.0))];
      if mapped.value.1.Some? {
        doc := doc + [("routing", Str(mapped.value.1.value))];
      }
      assert doc == DocFields(p, mapped.value.0, mapped.value.1);
      AfterCons(docs, [Obj(doc)], MgetDocs(p, ids[i + 1..]));
      docs := docs + [Obj(doc)];
    }
    assert docs + [] == docs;
    r := Ok(MgetBody(docs));
  }

  /** Where one fetch looks: a physical index and id, and the shard it is routed to. */
  datatype MgetTarget = MgetTarget(index: string, id: string, routing: Option<string>)

  /** The index an entry names, or the path's. */
  function IndexOr(fs: Fields, home: string): Option<string> {
    var index := ScalarField(fs, "_index");
    if index.Some? then index else if home != "" then Some(home) else None
  }

  /** What each fetch of a body names, as the upstream reads it behind a path that names `home`. */
  function Targets(home: string, docs: seq<Json>): Option<seq<MgetTarget>> {
    if docs == [] then Some([])
    else if !docs[0].Obj? then None
    else
      var index, id := IndexOr(docs[0].fields, home), ScalarField(docs[0].fields, "_id");
      var rest := Targets(home, docs[1..]);
      if index.None? || id.None? || rest.None? then None
      else Some([MgetTarget(index.value, id.value, ScalarField(docs[0].fields, "routing"))] + rest.value)
  }

  /** Bare ids in the path's index. */
  function IdTargets(home: string, ids: seq<Json>): Option<seq<MgetTarget>> {
    if ids == [] then Some([])
    else
      var id, rest := Scalar(ids[0]), IdTargets(home, ids[1..]);
      if id.None? || rest.None? then None else Some([MgetTarget(home, id.value, None)] + rest.value)
  }

  function ReadMget(home: string, body: string): Option<seq<MgetTarget>> {
    var fs := ParseObject(body);
    if fs.Err? then None else
      match Get(fs.value, "docs")
      case Some(Arr(docs)) => Targets(home, docs)
      case Some(_) => None
      case None =>
        match Get(fs.value, "ids")
        case Some(Arr(ids)) => if home == "" then None else IdTargets(home, ids)
        case _ => None
  }

  function TargetOf(p: Resolved, mapped: (string, Option<string>)): MgetTarget {
    MgetTarget(p.target.index, mapped.0, mapped.1)
  }

  function Located(p: Resolved, ids: seq<string>): (r: seq<MgetTarget>)
    requires forall i :: 0 <= i < |ids| ==> PhysicalId(p.transform, p.partition, ids[i]).Ok?
    ensures |r| == |ids|
    ensures forall i :: 0 <= i < |ids| ==>
              r[i] == TargetOf(p, PhysicalId(p.transform, p.partition, ids[i]).value)
  {
    if ids == [] then []
    else [TargetOf(p, PhysicalId(p.transform, p.partition, ids[0]).value)] + Located(p, ids[1..])
  }

  lemma DocFieldsRead(p: Resolved, physical: string, routing: Option<string>)
    ensures ValidFields(DocFields(p, physical, routing))
    ensures ScalarField(DocFields(p, physical, routing), "_index") == Some(p.target.index)
    ensures ScalarField(DocFields(p, physical, routing), "_id") == Some(physical)
    ensures ScalarField(DocFields(p, physical, routing), "routing") == routing
  {
    OptionalValid("routing", routing);
    var c := Optional("routing", routing);
    ConsValid(("_id", Str(physical)), c);
    ConsValid(("_index", Str(p.target.index)), [("_id", Str(physical))] + c);
  }

  lemma {:induction false} MgetDocsRead(p: Resolved, home: string, ids: seq<string>)
    requires MgetDocs(p, ids).Ok?
    ensures forall i :: 0 <= i < |ids| ==> PhysicalId(p.transform, p.partition, ids[i]).Ok?
    ensures ValidItems(MgetDocs(p, ids).value)
    ensures Targets(home, MgetDocs(p, ids).value) == Some(Located(p, ids))
  {
    if ids != [] {
      MgetDocsRead(p, home, ids[1..]);
      var r := PhysicalId(p.transform, p.partition, ids[0]).value;
      DocFieldsRead(p, r.0, r.1);
      var docs := MgetDocs(p, ids).value;
      assert docs[1..] == MgetDocs(p, ids[1..]).value;
    }
  }

  /** The upstream reads one fetch per requested id, in order, each at the physical index,
      the mapped id and its routing. */
  lemma RewrittenMgetRead(p: Resolved, home: string, body: string)
    requires RewriteMget(p, body).Ok?
    ensures ParseMget(body).Ok?
    ensures var ids := ParseMget(body).value;
            && (forall i :: 0 <= i < |ids| ==> PhysicalId(p.transform, p.partition, ids[i]).Ok?)
            && ReadMget(home, RewriteMget(p, body).value) == Some(Located(p, ids))
  {
    var ids := ParseMget(body).value;
    MgetDocsRead(p, home, ids);
    var docs := MgetDocs(p, ids).value;
    OneField(("docs", Arr(docs)));
    ParsePrint(Obj([("docs", Arr(docs))]));
  }

  // ----- msearch -----

  function HeaderLine(p: Resolved): string {
    Print(Obj([("index", Str(p.target.index))]))
  }

  function SearchLines(p: Resolved, items: seq<(string, string)>): Result<seq<string>, PrepareError> {
    if items == [] then Ok([]) else
      var query :- FilteredQuery(items[0].1, FilterTerms(p.transform, p.partition));
      var rest :- SearchLines(p, items[1..]);
      Ok([HeaderLine(p), query] + rest)
  }

  function RewriteMsearch(p: Resolved, body: string): Result<string, PrepareError> {
    var items :- Lift(ParseMsearch(body));
    var lines :- SearchLines(p, items);
    Ok(Unlines(lines))
  }

  method RewriteMsearchLoop(p: Resolved, body: string) returns (r: Result<string, PrepareError>)
    ensures r == RewriteMsearch(p, body)
  {
    var parsed := ParseMsearch(body);
    if parsed.Err? {
      return Err(RewriteFailed(parsed.error));
    }
    var items := parsed.value;
    var filter := FilterTerms(p.transform, p.partition);
    var out := "";
    ghost var done: seq<string> := [];
    assert items[0..] == items;
    AfterCons(done, [], SearchLines(p, items));
    for i := 0 to |items|
      invariant out == Unlines(done)
      invariant SearchLines(p, items) == After(done, SearchLines(p, items[i..]))
    {
      assert items[i..][1..] == items[i + 1..];
      var header := HeaderLine(p);
      out := out + header;
      out := out + "\n";
      UnlinesOne(done, header);
      var query := FilteredQuery(items[i].1, filter);
      if query.Err? {
        return Err(query.error);
      }
      out := out + query.value;
      out := out + "\n";
      UnlinesOne(done + [header], query.value);
      AfterCons(done, [header, query.value], SearchLines(p, items[i + 1..]));
      assert done + [header] + [query.value] == done + [header, query.value];
      done := done + [header, query.value];
    }
    assert done + [] == done;
    r := Ok(out);
  }

  /** Every search body the client sent, wrapped. */
  predicate AllFiltered(p: Resolved, items: seq<(string, string)>) {
    forall i :: 0 <= i < |items| ==> FilteredQuery(items[i].1, FilterTerms(p.transform, p.partition)).Ok?
  }

  function FilteredPairs(p: Resolved, items: seq<(string, string)>): (r: seq<(string, string)>)
    requires AllFiltered(p, items)
    ensures |r| == |items|
    ensures forall i :: 0 <= i < |items| ==>
              r[i] == (HeaderLine(p), FilteredQuery(items[i].1, FilterTerms(p.transform, p.partition)).value)
  {
    if items == [] then []
    else [(HeaderLine(p), FilteredQuery(items[0].1, FilterTerms(p.transform, p.partition)).value)]
         + FilteredPairs(p, items[1..])
  }

  lemma HeaderLineRead(p: Resolved)
    ensures OneLine(HeaderLine(p))
    ensures ParseObject(HeaderLine(p)) == Ok([("index", Str(p.target.index))])
  {
    OneField(("index", Str(p.target.index)));
    ParsePrint(Obj([("index", Str(p.target.index))]));
    PrintOneLine(Obj([("index", Str(p.target.index))]));
  }

  lemma {:induction false} TermClausesValid(terms: Fields)
    requires forall i :: 0 <= i < |terms| ==> ValidField(terms[i])
    ensures ValidItems(TermClauses(terms)) && |TermClauses(terms)| == |terms|
  {
    if terms != [] {
      TermClausesValid(terms[1..]);
      assert ValidField(terms[0]);
      OneField(terms[0]);
      OneField(("term", Obj([terms[0]])));
    }
  }

  lemma {:induction false} PartitionTermsValid(fields: seq<InjectedField>, partition: string)
    ensures forall i :: 0 <= i < |PartitionTerms(fields, partition)| ==>
              ValidField(PartitionTerms(fields, partition)[i])
  {
    if fields != [] { PartitionTermsValid(fields[1..], partition); }
  }

  lemma WrappedValid(query: Json, terms: Fields)
    requires Valid(query) && forall i :: 0 <= i < |terms| ==> ValidField(terms[i])
    ensures Valid(Wrapped(query, terms))
  {
    TermClausesValid(terms);
    var must, filter := ("must", Arr([query])), ("filter", Arr(TermClauses(terms)));
    OneField(filter);
    ConsValid(must, [filter]);
    assert [must] + [filter] == [must, filter];
    OneField(("bool", Obj([must, filter])));
  }

  lemma MatchAllValid()
    ensures Valid(MATCH_ALL)
  {
    OneField(("match_all", Obj([])));
  }

  /** The object a wrapped query body parses to. */
  lemma WrapQueryRead(body: string, terms: Fields)
    requires WrapQuery(body, terms).Ok?
    requires forall i :: 0 <= i < |terms| ==> ValidField(terms[i])
    ensures ParseObject(body).Ok? && OneLine(WrapQuery(body, terms).value)
    ensures var fs := ParseObject(body).value;
            ParseObject(WrapQuery(body, terms).value) == Ok(Insert(fs, "query", Wrapped(QueryIn(fs), terms)))
  {
    ParseValid(body);
    var fs := ParseObject(body).value;
    MatchAllValid();
    if Has(fs, "query") { GetValid(fs, "query"); }
    WrappedValid(QueryIn(fs), terms);
    InsertValid(fs, "query", Wrapped(QueryIn(fs), terms));
    ParsePrint(Obj(Insert(fs, "query", Wrapped(QueryIn(fs), terms))));
    PrintOneLine(Obj(Insert(fs, "query", Wrapped(QueryIn(fs), terms))));
  }

  lemma FilteredOneLine(body: string, t: BodyTransform, partition: string)
    requires OneLine(body) && FilteredQuery(body, FilterTerms(t, partition)).Ok?
    ensures OneLine(FilteredQuery(body, FilterTerms(t, partition)).value)
  {
    var terms := FilterTerms(t, partition);
    PartitionTermsValid(t.Injected(), partition);
    if terms != [] { WrapQueryRead(if body == "" then "{}" else body, terms); }
  }

  lemma {:induction false} PairsOneLine(lines: seq<string>)
    requires (forall i :: 0 <= i < |lines| ==> OneLine(lines[i])) && Pairs(lines).Ok?
    ensures forall i :: 0 <= i < |Pairs(lines).value| ==> OneLine(Pairs(lines).value[i].1)
  {
    if lines != [] { PairsOneLine(lines[2..]); }
  }

  lemma {:induction false} SearchLinesRead(p: Resolved, items: seq<(string, string)>)
    requires forall i :: 0 <= i < |items| ==> OneLine(items[i].1)
    ensures SearchLines(p, items).Ok? <==> AllFiltered(p, items)
    ensures SearchLines(p, items).Ok? ==>
              var lines := SearchLines(p, items).value;
              && Pairs(lines) == Ok(FilteredPairs(p, items))
              && forall i :: 0 <= i < |lines| ==> OneLine(lines[i])
  {
    if items != [] {
      SearchLinesRead(p, items[1..]);
      if SearchLines(p, items).Ok? {
        FilteredOneLine(items[0].1, p.transform, p.partition);
        HeaderLineRead(p);
        var lines := SearchLines(p, items).value;
        assert lines[2..] == SearchLines(p, items[1..]).value;
      }
    }
  }

  /** Position by position: the rewritten body holds one pair per client search, its header
      pinned to the physical index and its query wrapped; one bad query refuses them all. */
  lemma RewrittenMsearchRead(p: Resolved, body: string)
    ensures RewriteMsearch(p, body).Ok? <==>
            ParseMsearch(body).Ok? && AllFiltered(p, ParseMsearch(body).value)
    ensures RewriteMsearch(p, body).Ok? ==>
            ParseMsearch(RewriteMsearch(p, body).value) == Ok(FilteredPairs(p, ParseMsearch(body).value))
  {
    if ParseMsearch(body).Ok? {
      var items := ParseMsearch(body).value;
      LinesAreOneLine(body);
      PairsOneLine(Lines(body));
      SearchLinesRead(p, items);
      if RewriteMsearch(p, body).Ok? { LinesUnlines(SearchLines(p, items).value); }
    }
  }
}
