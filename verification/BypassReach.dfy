/** How far a bypass reaches. It looks at the index in the path alone, so a body that names the
    shared index goes there; and the response phase shapes what comes back as if it had not been
    bypassed. */
module BypassReach {
  import opened Common
  import opened Json
  import opened Rewrite
  import opened Ndjson
  import opened Adapter
  import opened Transform
  import opened Response
  import opened Route
  import opened Filter
  import opened Shared
  import opened Wire
  import opened Replies
  import opened Runs
  import opened Raw
  import opened Foreign
  import opened Sides
  import opened EndToEnd
  import Engine
  import Percent
  import Demux

  // ----- a body that names the shared index -----

  /** A multi-get through a bypassed index. */
  predicate BypassedMget(f: Brain, index: string, req: Request) {
    && f.pathHeader == None && index in f.passthrough && PlainIndex(index)
    && req.verb == "POST" && req.pathAndQuery == "/" + index + "/" + "_mget"
  }

  lemma MgetSegments(index: string)
    requires !IsAdminRoot(index)
    ensures ClassifySegments(POST, [index, "_mget"]) == Classified(index, MultiGet, None)
  {
    assert "_mget" != "scroll";
  }

  lemma MgetPath(index: string)
    requires PlainIndex(index)
    ensures var path := "/" + index + "/" + "_mget";
            PathOf(path) == path && Classify(POST, path) == Classified(index, MultiGet, None)
  {
    var path := "/" + index + "/" + "_mget";
    assert Free("_mget", '?') && Free(path, '?');
    SplitQuery(path, "");
    assert path + "" == path;
    Segments2(index, "_mget");
    MgetSegments(index);
  }

  lemma BypassedMgetIs(f: Brain, index: string, req: Request)
    requires BypassedMget(f, index, req)
    ensures FromFilter(req).Some? && FromFilter(req).value.endpoint == MultiGet
    ensures Filter.Seen(f, req) == req && Handled(f, req) == Untouched(req) && Passes(f, req)
  {
    MgetPath(index);
    HandledIs(f, req);
  }

  lemma MgetAsks(home: string, index: string, o: Outcome)
    requires o.Forwarded? && o.verb == "POST" && Classify(POST, PathOf(o.path)) == Classified(index, MultiGet, None)
    requires Demux.ReadMget(index, o.body).Some?
    ensures AskedOf(home, o) ==
            Some(Engine.FetchMany(TargetKeys(Or(o.cluster, home), Demux.ReadMget(index, o.body).value)))
  {
  }

  /** What the upstream is asked: the documents the body names, on the cluster of the default
      route. */
  lemma BypassedMgetAsks(sc: Scope, f: Brain, t: string, index: string, logical: string, body: string, req: Request)
    requires sc.Sound() && BypassedMget(f, index, req) && ParseMget(body).Ok?
    requires Demux.RewriteMget(sc.tenancy.Decide(t, logical), body).Ok?
    requires req.body == Demux.RewriteMget(sc.tenancy.Decide(t, logical), body).value
    ensures AskedOf(sc.tenancy.ClusterFor(t), Handled(f, req)) ==
            Some(Engine.FetchMany(KeysOf(sc, t, ParseMget(body).value)))
  {
    BypassedMgetIs(f, index, req);
    MgetPath(index);
    Demux.RewrittenMgetRead(sc.tenancy.Decide(t, logical), index, body);
    MgetAsks(sc.tenancy.ClusterFor(t), index, Handled(f, req));
    LocatedKeys(sc, t, logical, ParseMget(body).value);
  }

  /** A bypassed multi-get whose body is the one tenant `t`'s own multi-get is forwarded as, sent by
      anyone without a tenant, to the cluster `t` lives on: it is shown the stored documents of `t`,
      raw and stamped. */
  lemma BypassReadsShared(sc: Scope, f: Brain, docs: Docs, privs: Privates, t: string,
                          index: string, logical: string, body: string, req: Request)
    requires sc.Sound() && f.router == sc.tenancy.AsRouter() && Separated(sc, privs.Keys) && t in privs
    requires Represents(sc, Side(SharedPlace(sc), true, docs), privs)
    requires BypassedMget(f, index, req) && ParseMget(body).Ok?
    requires Demux.RewriteMget(sc.tenancy.Decide(t, logical), body).Ok?
    requires req.body == Demux.RewriteMget(sc.tenancy.Decide(t, logical), body).value
    requires FromFilter(req).Some? ==> sc.tenancy.ResolvePartition(FromFilter(req).value).Err?
    ensures var found := Engine.LookupAll(privs[t], ParseMget(body).value);
            BrainStep(f, sc.tenancy.ClusterFor(t), docs, req).1 == Shown(RawText(sc, t, Engine.FetchedMany(found)))
  {
    var xs := ParseMget(body).value;
    BypassedMgetIs(f, index, req);
    BypassedMgetAsks(sc, f, t, index, logical, body, req);
    SideAnswer(sc, docs, privs, t, Engine.FetchMany(xs));
    RouterBody(f, req, FromFilter(req).value, RawText(sc, t, Engine.FetchedMany(Engine.LookupAll(privs[t], xs))));
  }

  /** Such a request does not keep away from the shared index, as soon as it names a document. */
  lemma BypassedMgetStrays(sc: Scope, f: Brain, t: string, index: string, logical: string, body: string, req: Request)
    requires sc.Sound() && BypassedMget(f, index, req) && ParseMget(body).Ok?
    requires Demux.RewriteMget(sc.tenancy.Decide(t, logical), body).Ok?
    requires req.body == Demux.RewriteMget(sc.tenancy.Decide(t, logical), body).value
    ensures KeepsAway(sc, f, sc.tenancy.ClusterFor(t), req) <==> ParseMget(body).value == []
  {
    BypassedMgetAsks(sc, f, t, index, logical, body, req);
    BypassedMgetIs(f, index, req);
    var ks := KeysOf(sc, t, ParseMget(body).value);
    if ks != [] { assert !KeyOn(SharedPlace(sc), false, ks[0]); }
  }

  // ----- a bypassed answer is shaped -----

  /** A get through a bypassed index that a tenancy could also have resolved: the upstream's
      answer is shown as it is exactly when the document holds no field named like the isolation
      field. */
  lemma BypassedGetIff(sc: Scope, f: Brain, req: Request, r: Ctx, doc: Option<Json>)
    requires sc.Sound() && f.router == sc.tenancy.AsRouter() && FromFilter(req) == Some(r)
    requires r.endpoint == GetById && r.docId.Some? && sc.tenancy.ResolvePartition(r).Ok?
    requires doc.Some? ==> Valid(doc.value)
    ensures var name := (r.logicalIndex, r.docId.value);
            BrainBody(f, req, DocText(name, doc)) == DocText(name, doc)
            <==> doc.None? || !doc.value.Obj? || !Has(doc.value.fields, sc.tenancy.injectField)
  {
    var name := (r.logicalIndex, r.docId.value);
    var partition := sc.tenancy.ResolvePartition(r).value;
    var v := ViewOf(sc.tenancy.Decide(partition, r.logicalIndex), r.logicalIndex);
    DocValid(name, doc);
    MissingKept(v, Obj(Engine.DocFields(name, doc)));
    ShapeIs(sc, r, partition, DocText(name, doc));
    RouterBody(f, req, r, DocText(name, doc));
    PlainGetShaped(v, name, doc);
    if doc.Some? {
      StripOne(doc.value, sc.tenancy.injectField);
      assert v.names == [sc.tenancy.injectField];
      StrippedValid(doc.value, sc.tenancy.injectField);
      DocTextsIff(name, Some(StripFields(doc.value, v.names)), name, doc);
    }
  }

  /** Shaping an answer that already has the client's names only strips its source. */
  lemma PlainGetShaped(v: View, name: (string, string), doc: Option<Json>)
    requires v.index == name.0
    ensures GetShaped(Obj(Engine.DocFields(name, doc)), v, name.1) ==
            Obj(Engine.DocFields(name, if doc.Some? then Some(StripFields(doc.value, v.names)) else None))
  {
    var fs := FetchFields(name, doc);
    FetchFieldsAre(name, doc);
    FetchFieldsAre(name, if doc.Some? then Some(StripFields(doc.value, v.names)) else None);
    var a := [("found", Bool(doc.Some?))] + SourceField(doc);
    InsertHere("_index", Str(name.0), Str(name.0), [("_id", Str(name.1))] + a);
    InsertLater(("_index", Str(name.0)), [("_id", Str(name.1))] + a, "_id", Str(name.1));
    InsertHere("_id", Str(name.1), Str(name.1), a);
    assert Insert(Insert(fs, "_index", Str(name.0)), "_id", Str(name.1)) == fs;
    SourceGot(name, doc);
    if doc.Some? {
      var now := StripFields(doc.value, v.names);
      InsertLater(("_index", Str(name.0)), [("_id", Str(name.1))] + a, "_source", now);
      InsertLater(("_id", Str(name.1)), a, "_source", now);
      InsertLater(("found", Bool(true)), SourceField(doc), "_source", now);
      InsertHere("_source", now, doc.value, []);
    }
  }

  lemma SourceGot(name: (string, string), doc: Option<Json>)
    ensures Get(FetchFields(name, doc), "_source") == doc
  {
    var index, id, found := ("_index", Str(name.0)), ("_id", Str(name.1)), ("found", Bool(doc.Some?));
    GetOne(index, "_source");
    GetOne(id, "_source");
    GetOne(found, "_source");
    if doc.Some? { GetOne(("_source", doc.value), "_source"); }
    assert SourceField(doc) == if doc.Some? then [("_source", doc.value)] else [];
    GetConcat([found], SourceField(doc), "_source");
    GetConcat([id], [found] + SourceField(doc), "_source");
    GetConcat([index], [id] + ([found] + SourceField(doc)), "_source");
  }

  lemma StripOne(doc: Json, name: string)
    ensures StripFields(doc, [name]) == doc <==> !doc.Obj? || !Has(doc.fields, name)
  {
    if doc.Obj? {
      assert RemoveAll(doc.fields, [name]) == Remove(doc.fields, name) by { assert [name][1..] == []; }
      if Has(doc.fields, name) { RemoveShortens(doc.fields, name); } else { RemoveAbsent(doc.fields, name); }
    }
  }

  lemma {:induction false} RemoveShortens(fs: Fields, name: string)
    ensures |Remove(fs, name)| <= |fs| && (Has(fs, name) ==> |Remove(fs, name)| < |fs|)
  {
    if fs != [] { RemoveShortens(fs[1..], name); }
  }

  lemma StrippedValid(doc: Json, name: string)
    requires Valid(doc)
    ensures Valid(StripFields(doc, [name]))
  {
    if doc.Obj? {
      assert RemoveAll(doc.fields, [name]) == Remove(doc.fields, name) by { assert [name][1..] == []; }
      RemoveValid(doc.fields, name);
    }
  }

  lemma {:induction false} RemoveKeeps(fs: Fields, name: string, key: string)
    ensures Has(Remove(fs, name), key) ==> Has(fs, key)
  {
    if fs != [] {
      RemoveKeeps(fs[1..], name, key);
      assert ([fs[0]] + Remove(fs[1..], name))[1..] == Remove(fs[1..], name);
    }
  }

  lemma {:induction false} RemoveValid(fs: Fields, name: string)
    requires ValidFields(fs)
    ensures ValidFields(Remove(fs, name))
  {
    if fs != [] {
      RemoveValid(fs[1..], name);
      RemoveKeeps(fs[1..], name, fs[0].0);
      if fs[0].0 != name { ConsValid(fs[0], Remove(fs[1..], name)); }
    }
  }
}
