/** The multi-operation request bodies: `_bulk` and `_msearch` NDJSON, `_mget` JSON. The
    parsers live in `osproxy-rewrite`; the same readers serve the upstream, which reads
    the rewritten bodies. */
module Ndjson {
  import opened Common
  import opened Json
  import opened Rewrite

  // ----- lines -----

  /** The lines of a text; the newline after the last line is optional. */
  function Lines(s: string): seq<string>
    decreases |s|
  {
    if s == "" then [] else
      var r := SplitOnce(s, '\n');
      if r.None? then [s] else [r.value.0] + Lines(r.value.1)
  }

  /** Every line followed by a newline. */
  function Unlines(lines: seq<string>): string {
    if lines == [] then "" else lines[0] + (['\n'] + Unlines(lines[1..]))
  }

  predicate OneLine(s: string) {
    Free(s, '\n')
  }

  lemma {:induction false} LinesUnlines(lines: seq<string>)
    requires forall i :: 0 <= i < |lines| ==> OneLine(lines[i])
    ensures Lines(Unlines(lines)) == lines
  {
    if lines != [] {
      LinesUnlines(lines[1..]);
      LinesCons(lines[0], Unlines(lines[1..]));
    }
  }

  lemma LinesCons(line: string, t: string)
    requires OneLine(line)
    ensures Lines(line + (['\n'] + t)) == [line] + Lines(t)
  {
    SplitOnceAt(line, '\n', t);
    assert line + ['\n'] + t == line + (['\n'] + t);
  }

  lemma {:induction false} LinesAreOneLine(s: string)
    ensures forall i :: 0 <= i < |Lines(s)| ==> OneLine(Lines(s)[i])
    decreases |s|
  {
    if s != "" {
      var r := SplitOnce(s, '\n');
      if r.Some? { LinesAreOneLine(r.value.1); }
    }
  }

  lemma {:induction false} UnlinesConcat(a: seq<string>, b: seq<string>)
    ensures Unlines(a + b) == Unlines(a) + Unlines(b)
  {
    if a == [] {
      assert a + b == b;
    } else {
      assert (a + b)[1..] == a[1..] + b;
      UnlinesConcat(a[1..], b);
    }
  }

  lemma UnlinesOne(done: seq<string>, line: string)
    ensures Unlines(done + [line]) == Unlines(done) + line + "\n"
  {
    UnlinesConcat(done, [line]);
    assert Unlines([line]) == line + (['\n'] + "");
    assert ['\n'] + "" == "\n";
    assert Unlines(done) + (line + "\n") == Unlines(done) + line + "\n";
  }

  // ----- bulk -----

  datatype BulkAction = Index | Create | Update | Delete

  function Verb(a: BulkAction): string {
    match a
    case Index => "index"
    case Create => "create"
    case Update => "update"
    case Delete => "delete"
  }

  function ActionOf(verb: string): Option<BulkAction> {
    if verb == "index" then Some(Index)
    else if verb == "create" then Some(Create)
    else if verb == "update" then Some(Update)
    else if verb == "delete" then Some(Delete)
    else None
  }

  /** An action line with its metadata, and the source line after it unless it deletes. */
  datatype BulkEntry = BulkEntry(action: BulkAction, meta: Fields, source: Option<string>)

  /** What the rewriter uses of an entry. */
  datatype BulkItem = BulkItem(action: BulkAction, id: Option<string>, source: Option<string>)

  function ParseAction(line: string): Result<(BulkAction, Fields), RewriteError> {
    var fs :- ParseObject(line);
    if |fs| != 1 || ActionOf(fs[0].0).None? || !fs[0].1.Obj? then Err(BadBulk)
    else Ok((ActionOf(fs[0].0).value, fs[0].1.fields))
  }

  function ParseEntries(lines: seq<string>): Result<seq<BulkEntry>, RewriteError> {
    if lines == [] then Ok([]) else
      var head :- ParseAction(lines[0]);
      if head.0.Delete? then
        var rest :- ParseEntries(lines[1..]);
        Ok([BulkEntry(head.0, head.1, None)] + rest)
      else if |lines| < 2 then Err(BadBulk)
      else
        var rest :- ParseEntries(lines[2..]);
        Ok([BulkEntry(head.0, head.1, Some(lines[1]))] + rest)
  }

  function IdOf(meta: Fields): Result<Option<string>, RewriteError> {
    var v := Get(meta, "_id");
    if v.None? then Ok(None)
    else if Scalar(v.value).None? then Err(BadBulk)
    else Ok(Some(Scalar(v.value).value))
  }

  function Items(entries: seq<BulkEntry>): Result<seq<BulkItem>, RewriteError> {
    if entries == [] then Ok([]) else
      var id :- IdOf(entries[0].meta);
      var rest :- Items(entries[1..]);
      Ok([BulkItem(entries[0].action, id, entries[0].source)] + rest)
  }

  /** `parse_bulk`. */
  function ParseBulk(body: string): Result<seq<BulkItem>, RewriteError> {
    var entries :- ParseEntries(Lines(body));
    Items(entries)
  }

  /** A delete carries no source and every other action does. */
  predicate WellSourced(items: seq<BulkItem>) {
    forall i :: 0 <= i < |items| ==>
      (items[i].source.None? <==> items[i].action.Delete?)
      && (items[i].source.Some? ==> OneLine(items[i].source.value))
  }

  predicate EntriesSourced(entries: seq<BulkEntry>) {
    forall i :: 0 <= i < |entries| ==>
      (entries[i].source.None? <==> entries[i].action.Delete?)
      && (entries[i].source.Some? ==> OneLine(entries[i].source.value))
  }

  lemma {:induction false} ParseEntriesSourced(lines: seq<string>)
    requires forall i :: 0 <= i < |lines| ==> OneLine(lines[i])
    requires ParseEntries(lines).Ok?
    ensures EntriesSourced(ParseEntries(lines).value)
  {
    if lines != [] {
      var head := ParseAction(lines[0]).value;
      ParseEntriesSourced(if head.0.Delete? then lines[1..] else lines[2..]);
    }
  }

  lemma {:induction false} ItemsSourced(entries: seq<BulkEntry>)
    requires EntriesSourced(entries) && Items(entries).Ok?
    ensures WellSourced(Items(entries).value)
  {
    if entries != [] { ItemsSourced(entries[1..]); }
  }

  lemma ParseBulkSourced(body: string)
    requires ParseBulk(body).Ok?
    ensures WellSourced(ParseBulk(body).value)
  {
    LinesAreOneLine(body);
    ParseEntriesSourced(Lines(body));
    ItemsSourced(ParseEntries(Lines(body)).value);
  }

  // ----- mget -----

  function DocIds(docs: seq<Json>): Result<seq<string>, RewriteError> {
    if docs == [] then Ok([])
    else if !docs[0].Obj? || ScalarField(docs[0].fields, "_id").None? then Err(BadMget)
    else
      var rest :- DocIds(docs[1..]);
      Ok([ScalarField(docs[0].fields, "_id").value] + rest)
  }

  function BareIds(ids: seq<Json>): Result<seq<string>, RewriteError> {
    if ids == [] then Ok([])
    else if Scalar(ids[0]).None? then Err(BadMget)
    else
      var rest :- BareIds(ids[1..]);
      Ok([Scalar(ids[0]).value] + rest)
  }

  /** `parse_mget`: the ids of `docs[]`, or of a bare `ids[]`. */
  function ParseMget(body: string): Result<seq<string>, RewriteError> {
    var fs :- ParseObject(body);
    match Get(fs, "docs")
    case Some(Arr(docs)) => DocIds(docs)
    case _ =>
      match Get(fs, "ids")
      case Some(Arr(ids)) => BareIds(ids)
      case _ => Err(BadMget)
  }

  // ----- msearch -----

  /** Header and query lines in turn. */
  function Pairs(lines: seq<string>): Result<seq<(string, string)>, RewriteError> {
    if lines == [] then Ok([])
    else if |lines| < 2 then Err(BadMsearch)
    else
      var header :- ParseObject(lines[0]);
      var rest :- Pairs(lines[2..]);
      Ok([(lines[0], lines[1])] + rest)
  }

  /** `parse_msearch`: header and query of each search. */
  function ParseMsearch(body: string): Result<seq<(string, string)>, RewriteError> {
    Pairs(Lines(body))
  }
}
