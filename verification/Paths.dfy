/** How a path and a method are read: into segments, and from them into an endpoint, an index and a
    document (crates/evoxy-adapter/src/classify.rs). */
module Paths {
  import opened Common
  import opened Adapter
  import opened Route

  // ----- segments -----

  lemma Regroup<T>(first: seq<T>, one: seq<T>, more: seq<T>, rest: seq<T>)
    ensures first + one + more + rest == first + one + (more + rest)
    ensures first + (more + rest) == first + more + rest
  {
  }

  lemma {:induction false} SplitConcat(a: string, c: char, b: string)
    ensures Split(a + ([c] + b), c) == Split(a, c) + Split(b, c)
    decreases |a|, 1
  {
    var r := SplitOnce(a, c);
    if r.None? {
      SplitAt(a, c, b);
      SplitFree(a, c);
      Regroup(a, [], [c], b);
      assert a + [] == a;
    } else {
      SplitBehind(r.value.0, c, r.value.1, b);
    }
  }

  lemma {:induction false} SplitBehind(first: string, c: char, more: string, b: string)
    requires Free(first, c)
    ensures Split(first + [c] + more + ([c] + b), c) == Split(first + [c] + more, c) + Split(b, c)
    decreases |first + [c] + more|, 0
  {
    SplitAt(first, c, more + ([c] + b));
    SplitAt(first, c, more);
    Regroup(first, [c], more, [c] + b);
    SplitConcat(more, c, b);
    Regroup([first], [], Split(more, c), Split(b, c));
  }

  lemma {:induction false} NonEmptyConcat(a: seq<string>, b: seq<string>)
    ensures NonEmpty(a + b) == NonEmpty(a) + NonEmpty(b)
  {
    if a == [] {
      assert a + b == b;
    } else {
      assert (a + b)[1..] == a[1..] + b;
      NonEmptyConcat(a[1..], b);
    }
  }

  function Parts(s: string): seq<string> {
    NonEmpty(Split(s, '/'))
  }

  lemma PartsConcat(a: string, b: string)
    ensures Parts(a + (['/'] + b)) == Parts(a) + Parts(b)
  {
    SplitConcat(a, '/', b);
    NonEmptyConcat(Split(a, '/'), Split(b, '/'));
  }

  lemma NoParts()
    ensures Parts("") == []
  {
    assert Split("", '/') == [""];
    assert NonEmpty([""]) == NonEmpty([""][1..]);
  }

  lemma {:induction false} PartsTrimLeft(s: string)
    ensures Parts(TrimLeft(s, '/')) == Parts(s)
  {
    if s != "" && s[0] == '/' {
      PartsTrimLeft(s[1..]);
      NoParts();
      PartsConcat("", s[1..]);
      assert "" + (['/'] + s[1..]) == s;
    }
  }

  lemma {:induction false} PartsTrimRight(s: string)
    ensures Parts(TrimRight(s, '/')) == Parts(s)
  {
    if s != "" && s[|s| - 1] == '/' {
      PartsTrimRight(s[..|s| - 1]);
      NoParts();
      PartsConcat(s[..|s| - 1], "");
      assert s[..|s| - 1] + (['/'] + "") == s;
    }
  }

  /** The segments of a path are those before a slash and those behind it, wherever the slash. */
  lemma SegmentsConcat(a: string, b: string)
    ensures Segments(a + (['/'] + b)) == Segments(a) + Segments(b)
  {
    SegmentsParts(a + (['/'] + b));
    SegmentsParts(a);
    SegmentsParts(b);
    PartsConcat(a, b);
  }

  lemma SegmentsParts(s: string)
    ensures Segments(s) == Parts(s)
  {
    PartsTrimLeft(s);
    PartsTrimRight(TrimLeft(s, '/'));
  }

  /** A text without slashes is one segment, or none if it is empty. */
  lemma SegmentsOne(s: string)
    requires Free(s, '/')
    ensures Segments(s) == if s == "" then [] else [s]
  {
    SegmentsParts(s);
    SplitFree(s, '/');
    assert NonEmpty([s]) == (if s == "" then [] else [s]) + NonEmpty([s][1..]);
  }

  /** A path is administrative exactly when its first segment is one of these. */
  lemma AdminReadIff(m: Method, path: string)
    requires Segments(path) != []
    ensures Classify(m, path).endpoint == Admin <==>
            Segments(path)[0] in {"_cat", "_cluster", "_nodes", "_aliases", "_tasks", "_snapshot"}
  {
    FirstDecides(m, Segments(path));
  }

  lemma FirstDecides(m: Method, segs: seq<string>)
    requires segs != []
    ensures ClassifySegments(m, segs).endpoint == Admin <==>
            segs[0] in {"_cat", "_cluster", "_nodes", "_aliases", "_tasks", "_snapshot"}
  {
  }

  // ----- operations and documents -----

  /** The path segment that stands for an operation on an index. */
  function OperationName(e: Endpoint): Option<string> {
    match e
    case IngestBulk => Some("_bulk")
    case Search => Some("_search")
    case Count => Some("_count")
    case MultiGet => Some("_mget")
    case MultiSearch => Some("_msearch")
    case DeleteByQuery => Some("_delete_by_query")
    case Cursor => Some("_pit")
    case _ => None
  }

  /** An operation is asked of an index exactly by its name behind the index, in every method. */
  lemma OperationReadIff(m: Method, index: string, name: string, e: Endpoint)
    requires PlainIndex(index) && Plain(name) && OperationName(e).Some?
    requires !(index == "_search" && name == "scroll")
    ensures Classify(m, "/" + index + "/" + name) == Classified(index, e, None) <==> OperationName(e) == Some(name)
  {
    Segments2(index, name);
    OperationSegments(m, index, name, e);
  }

  lemma OperationSegments(m: Method, index: string, name: string, e: Endpoint)
    requires !IsAdminRoot(index) && OperationName(e).Some? && !(index == "_search" && name == "scroll")
    ensures ClassifySegments(m, [index, name]) == Classified(index, e, None) <==> OperationName(e) == Some(name)
  {
    assert [index, name][2..] == [];
  }

  /** And of no index by its name alone, for the five that carry indices in their bodies or search
      them all. */
  lemma ClusterOperationReadIff(m: Method, name: string, e: Endpoint)
    requires Plain(name) && e in {IngestBulk, MultiGet, MultiSearch, Search, Count}
    ensures Classify(m, "/" + name) == Classified("", e, None) <==> OperationName(e) == Some(name)
  {
    Segments1(name);
    NameAlone(m, name, e);
  }

  lemma NameAlone(m: Method, name: string, e: Endpoint)
    requires e in {IngestBulk, MultiGet, MultiSearch, Search, Count}
    ensures ClassifySegments(m, [name]) == Classified("", e, None) <==> OperationName(e) == Some(name)
  {
  }

  /** One document is read, deleted or written by method, under its id. */
  lemma DocumentRead(m: Method, index: string, id: string)
    requires PlainIndex(index) && Plain(id)
    ensures var e := match m
                     case GET => GetById
                     case HEAD => GetById
                     case DELETE => DeleteById
                     case _ => IngestDoc;
            Classify(m, "/" + index + "/" + "_doc" + "/" + id) == Classified(index, e, Some(id))
  {
    Segments3(index, "_doc", id);
    DocumentSegments(m, index, id);
  }

  lemma DocumentSegments(m: Method, index: string, id: string)
    requires !IsAdminRoot(index)
    ensures var c := ClassifySegments(m, [index, "_doc", id]);
            && c.index == index && c.docId == Some(id)
            && c.endpoint == match m
                             case GET => GetById
                             case HEAD => GetById
                             case DELETE => DeleteById
                             case _ => IngestDoc
  {
    assert [index, "_doc", id][2..] == [id];
    assert "_doc" != "scroll";
  }

  /** Whatever else stands behind an index is unknown, and so is nothing. */
  lemma OtherwiseUnknown(m: Method, index: string, name: string)
    requires PlainIndex(index) && Plain(name) && !(index == "_search" && name == "scroll")
    requires name !in {"_doc", "_create", "_update"} && forall e: Endpoint :: OperationName(e) != Some(name)
    ensures Classify(m, "/" + index + "/" + name) == Classified(index, Unknown, None)
  {
    Segments2(index, name);
    NamesNoOperation(name);
    OtherSegments(m, index, name);
  }

  lemma NamesNoOperation(name: string)
    requires forall e: Endpoint :: OperationName(e) != Some(name)
    ensures name !in {"_bulk", "_search", "_count", "_mget", "_msearch", "_delete_by_query", "_pit"}
  {
    assert OperationName(IngestBulk) != Some(name) && OperationName(Endpoint.Search) != Some(name);
    assert OperationName(Count) != Some(name) && OperationName(MultiGet) != Some(name);
    assert OperationName(MultiSearch) != Some(name) && OperationName(DeleteByQuery) != Some(name);
    assert OperationName(Cursor) != Some(name);
  }

  lemma OtherSegments(m: Method, index: string, name: string)
    requires !IsAdminRoot(index) && !(index == "_search" && name == "scroll")
    requires name !in {"_doc", "_create", "_update", "_bulk", "_search", "_count", "_mget", "_msearch",
                       "_delete_by_query", "_pit"}
    ensures ClassifySegments(m, [index, name]) == Classified(index, Unknown, None)
  {
  }

  /** So is an index alone. */
  lemma IndexAlone(m: Method, index: string)
    requires PlainIndex(index) && forall e :: e in {IngestBulk, MultiGet, MultiSearch, Search, Count} ==>
               OperationName(e) != Some(index)
    ensures Classify(m, "/" + index) == Classified(index, Unknown, None)
  {
    Segments1(index);
    assert OperationName(IngestBulk) != Some(index) && OperationName(Endpoint.Search) != Some(index);
    assert OperationName(Count) != Some(index) && OperationName(MultiGet) != Some(index);
    assert OperationName(MultiSearch) != Some(index);
  }

  /** Scrolling is a cursor, of no index. */
  lemma ScrollRead(m: Method, path: string)
    requires |Segments(path)| >= 2 && Segments(path)[0] == "_search" && Segments(path)[1] == "scroll"
    ensures Classify(m, path) == Classified("", Cursor, None)
  {
  }
}
