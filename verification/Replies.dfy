/** Answers: what the shared store answers to a tenant's operation, shaped on the way back,
    is the text the tenant's own store would have answered. */
module Replies {
  import opened Common
  import opened Json
  import opened Rewrite
  import opened Ndjson
  import opened Adapter
  import opened Transform
  import opened Response
  import opened Route
  import opened Reference
  import Engine
  import opened Shared
  import opened Wire

  function PhysicalNaming(): Engine.Naming<Key> {
    (k: Key) => (k.index, k.id)
  }

  function LogicalNaming(index: string): Engine.Naming<string> {
    (x: string) => (index, x)
  }

  // ----- computing with in-place insertion -----

  lemma InsertHere(key: string, v: Json, w: Json, rest: Fields)
    ensures Insert([(key, w)] + rest, key, v) == [(key, v)] + rest
  {
    assert ([(key, w)] + rest)[1..] == rest;
  }

  lemma InsertLater(f: (string, Json), rest: Fields, key: string, v: Json)
    requires f.0 != key
    ensures Insert([f] + rest, key, v) == [f] + Insert(rest, key, v)
  {
    assert ([f] + rest)[1..] == rest;
  }

  /** A fetched document's fields, head first. */
  function FetchFields(name: (string, string), doc: Option<Json>): Fields {
    [("_index", Str(name.0))] + ([("_id", Str(name.1))] + ([("found", Bool(doc.Some?))] + SourceField(doc)))
  }

  function SourceField(doc: Option<Json>): Fields {
    if doc.Some? then [("_source", doc.value)] + [] else []
  }

  lemma FetchFieldsAre(name: (string, string), doc: Option<Json>)
    ensures Engine.DocFields(name, doc) == FetchFields(name, doc)
  {
  }

  lemma FetchFieldsValid(name: (string, string), doc: Option<Json>)
    requires doc.Some? ==> Valid(doc.value)
    ensures ValidFields(FetchFields(name, doc))
    ensures Get(FetchFields(name, doc), "_id") == Some(Str(name.1))
    ensures Get(FetchFields(name, doc), "_source") == doc
  {
    if doc.Some? { ConsValid(("_source", doc.value), []); }
    var a := [("found", Bool(doc.Some?))] + SourceField(doc);
    ConsValid(("found", Bool(doc.Some?)), SourceField(doc));
    ConsValid(("_id", Str(name.1)), a);
    ConsValid(("_index", Str(name.0)), [("_id", Str(name.1))] + a);
  }

  lemma FetchFieldsRenamed(was: (string, string), name: (string, string), had: Option<Json>, src: Option<Fields>)
    requires had.Some? <==> src.Some?
    ensures ClientFields(FetchFields(was, had), name.0, name.1, src)
            == FetchFields(name, if src.Some? then Some(Obj(src.value)) else None)
  {
    var a := [("found", Bool(had.Some?))] + SourceField(had);
    var id, wasId := ("_id", Str(name.1)), ("_id", Str(was.1));
    InsertHere("_index", Str(name.0), Str(was.0), [wasId] + a);
    InsertLater(("_index", Str(name.0)), [wasId] + a, "_id", Str(name.1));
    InsertHere("_id", Str(name.1), Str(was.1), a);
    if src.Some? {
      var v := Obj(src.value);
      InsertLater(("_index", Str(name.0)), [id] + a, "_source", v);
      InsertLater(id, a, "_source", v);
      InsertLater(("found", Bool(true)), SourceField(had), "_source", v);
      InsertHere("_source", v, had.value, []);
    }
  }

  // ----- one fetched document -----

  predicate StorableOption(sc: Scope, doc: Option<Json>) {
    doc.Some? ==> sc.Storable(doc.value)
  }

  function SourceOf(doc: Option<Json>): Option<Fields>
    requires doc.Some? ==> doc.value.Obj?
  {
    if doc.Some? then Some(doc.value.fields) else None
  }

  lemma SharedMapId(sc: Scope, t: string, index: string, x: string)
    requires sc.Sound()
    ensures MapId(sc.tenancy.Decide(t, index).transform, t, x) == Ok(sc.shape.Physical(t, x))
  {
  }

  lemma FetchAbout(sc: Scope, t: string, index: string, x: string, doc: Option<Json>)
    requires sc.Sound() && StorableOption(sc, doc)
    ensures AboutStored(FetchFields((sc.tenancy.sharedIndex, sc.shape.Physical(t, x)), StampOption(sc, t, doc)),
                        sc.tenancy.Decide(t, index), x, SourceOf(doc))
    ensures ValidFields(FetchFields((sc.tenancy.sharedIndex, sc.shape.Physical(t, x)), StampOption(sc, t, doc)))
  {
    if doc.Some? { StampValid(sc, t, doc.value); }
    FetchFieldsValid((sc.tenancy.sharedIndex, sc.shape.Physical(t, x)), StampOption(sc, t, doc));
    SharedMapId(sc, t, index, x);
    SharedInjects(sc, t);
  }

  /** A fetched document, shaped, is the tenant's own document under its own name. */
  lemma FetchShaped(sc: Scope, t: string, index: string, x: string, doc: Option<Json>)
    requires sc.Sound() && StorableOption(sc, doc)
    ensures var name := (sc.tenancy.sharedIndex, sc.shape.Physical(t, x));
            var answer := Engine.DocFields(name, StampOption(sc, t, doc));
            && ValidFields(answer)
            && HitShaped(Obj(answer), ViewOf(sc.tenancy.Decide(t, index), index))
               == Obj(Engine.DocFields((index, x), doc))
  {
    var name := (sc.tenancy.sharedIndex, sc.shape.Physical(t, x));
    FetchAbout(sc, t, index, x, doc);
    FetchFieldsAre(name, StampOption(sc, t, doc));
    FetchFieldsAre((index, x), doc);
    HitInverse(FetchFields(name, StampOption(sc, t, doc)), sc.tenancy.Decide(t, index), x, SourceOf(doc), index);
    FetchFieldsRenamed(name, (index, x), StampOption(sc, t, doc), SourceOf(doc));
  }

  lemma GetShapedToo(sc: Scope, t: string, index: string, x: string, doc: Option<Json>)
    requires sc.Sound() && StorableOption(sc, doc)
    ensures var name := (sc.tenancy.sharedIndex, sc.shape.Physical(t, x));
            var answer := Engine.DocFields(name, StampOption(sc, t, doc));
            GetShaped(Obj(answer), ViewOf(sc.tenancy.Decide(t, index), index), x)
            == Obj(Engine.DocFields((index, x), doc))
  {
    var name := (sc.tenancy.sharedIndex, sc.shape.Physical(t, x));
    var answer := Engine.DocFields(name, StampOption(sc, t, doc));
    var v := ViewOf(sc.tenancy.Decide(t, index), index);
    FetchShaped(sc, t, index, x, doc);
    MgetAgreesWithGetIff(answer, v, x);
    FetchFieldsAre((index, x), doc);
    UnmappedHere(sc, t, index, x, answer, name.0);
  }

  /** The id of an answer about a tenant's document unmaps to the tenant's id. */
  lemma UnmappedHere(sc: Scope, t: string, index: string, x: string, answer: Fields, was: string)
    requires sc.Sound() && Get(answer, "_id") == Some(Str(sc.shape.Physical(t, x)))
    ensures var v := ViewOf(sc.tenancy.Decide(t, index), index);
            Get(IdUnmapped(Insert(answer, "_index", Str(index)), v), "_id") == Some(Str(x))
  {
    var named := Insert(answer, "_index", Str(index));
    GetInsert(answer, "_index", Str(index), "_id");
    UnmapMapped(sc.tenancy.idTemplate, t, x);
    GetInsert(named, "_id", Str(x), "_id");
  }

  // ----- multi-get -----

  predicate StorableDocs(sc: Scope, docs: seq<(string, Option<Json>)>) {
    forall i :: 0 <= i < |docs| ==> StorableOption(sc, docs[i].1)
  }

  /** Multi-get answers of the shared store are well formed and shaped to the tenant's own. */
  ghost predicate DocsAlike(sc: Scope, t: string, index: string, docs: seq<(string, Option<Json>)>) {
    var answers := Engine.DocsJson(PhysicalDocs(sc, t, docs), PhysicalNaming());
    && ValidItems(answers)
    && HitsShaped(answers, ViewOf(sc.tenancy.Decide(t, index), index)) == Engine.DocsJson(docs, LogicalNaming(index))
  }

  lemma DocsCons(sc: Scope, t: string, index: string, x: string, doc: Option<Json>, docs: seq<(string, Option<Json>)>)
    requires sc.Sound() && StorableOption(sc, doc) && DocsAlike(sc, t, index, docs)
    ensures DocsAlike(sc, t, index, [(x, doc)] + docs)
  {
    var all := [(x, doc)] + docs;
    FetchShaped(sc, t, index, x, doc);
    assert all[1..] == docs;
    assert PhysicalDocs(sc, t, all)[1..] == PhysicalDocs(sc, t, docs);
  }

  lemma {:induction false} DocsShaped(sc: Scope, t: string, index: string, docs: seq<(string, Option<Json>)>)
    requires sc.Sound() && StorableDocs(sc, docs)
    ensures DocsAlike(sc, t, index, docs)
  {
    if docs != [] {
      assert StorableOption(sc, docs[0].1);
      assert StorableDocs(sc, docs[1..]) by {
        forall i | 0 <= i < |docs[1..]| ensures StorableOption(sc, docs[1..][i].1) {
          assert docs[1..][i] == docs[i + 1];
        }
      }
      DocsShaped(sc, t, index, docs[1..]);
      DocsCons(sc, t, index, docs[0].0, docs[0].1, docs[1..]);
      assert [(docs[0].0, docs[0].1)] + docs[1..] == docs;
    }
  }

  /** An object holding one array, shaped under its key. */
  lemma OneArray(key: string, was: seq<Json>, now: seq<Json>)
    ensures ArrayAt(Obj([(key, Arr(was))]), key) == Some(was)
    ensures WithArray(Obj([(key, Arr(was))]), key, now) == Obj([(key, Arr(now))])
  {
    InsertHere(key, Arr(now), Arr(was), []);
    assert [(key, Arr(was))] + [] == [(key, Arr(was))];
    assert [(key, Arr(now))] + [] == [(key, Arr(now))];
  }

  lemma ShapePrinted(v: View, top: Json, key: string, xs: seq<Json>)
    requires Valid(top) && ArrayAt(top, key) == Some(xs)
    ensures key == "docs" ==> ShapeMget(v, Print(top)) == Ok(Print(WithArray(top, key, HitsShaped(xs, v))))
    ensures key == "items" ==> ShapeBulk(v, Print(top)) == Ok(Print(WithArray(top, key, ItemsShaped(xs, v))))
  {
    ParsePrint(top);
  }

  lemma DocsAnswerShaped(v: View, index: string, docs: seq<(Key, Option<Json>)>, own: seq<(string, Option<Json>)>)
    requires ValidItems(Engine.DocsJson(docs, PhysicalNaming()))
    requires HitsShaped(Engine.DocsJson(docs, PhysicalNaming()), v) == Engine.DocsJson(own, LogicalNaming(index))
    ensures ShapeMget(v, Print(Engine.AnswerJson(Engine.FetchedMany(docs), PhysicalNaming())))
            == Ok(Print(Engine.AnswerJson(Engine.FetchedMany(own), LogicalNaming(index))))
  {
    var answers := Engine.DocsJson(docs, PhysicalNaming());
    OneField(("docs", Arr(answers)));
    OneArray("docs", answers, Engine.DocsJson(own, LogicalNaming(index)));
    ShapePrinted(v, Obj([("docs", Arr(answers))]), "docs", answers);
  }

  lemma MgetShaped(sc: Scope, t: string, index: string, docs: seq<(string, Option<Json>)>)
    requires sc.Sound() && StorableDocs(sc, docs)
    ensures ShapeMget(ViewOf(sc.tenancy.Decide(t, index), index),
                      Print(Engine.AnswerJson(Engine.FetchedMany(PhysicalDocs(sc, t, docs)), PhysicalNaming())))
            == Ok(Print(Engine.AnswerJson(Engine.FetchedMany(docs), LogicalNaming(index))))
  {
    DocsShaped(sc, t, index, docs);
    DocsAnswerShaped(ViewOf(sc.tenancy.Decide(t, index), index), index, PhysicalDocs(sc, t, docs), docs);
  }

  lemma GetAnswerShaped(sc: Scope, t: string, index: string, x: string, doc: Option<Json>)
    requires sc.Sound() && StorableOption(sc, doc)
    ensures ShapeGet(ViewOf(sc.tenancy.Decide(t, index), index), x,
                     Print(Engine.AnswerJson(Engine.Fetched(sc.KeyOf(t, x), StampOption(sc, t, doc)), PhysicalNaming())))
            == Ok(Print(Engine.AnswerJson(Engine.Fetched(x, doc), LogicalNaming(index))))
  {
    FetchShaped(sc, t, index, x, doc);
    GetShapedToo(sc, t, index, x, doc);
    ParsePrint(Obj(Engine.DocFields((sc.tenancy.sharedIndex, sc.shape.Physical(t, x)), StampOption(sc, t, doc))));
  }

  // ----- bulk -----

  function ActedFields(name: (string, string), status: nat): Fields {
    [("_index", Str(name.0))] + ([("_id", Str(name.1))] + ([("status", Num(Engine.StatusText(status)))] + []))
  }

  lemma ActedFieldsAre(name: (string, string), status: nat)
    ensures ActedFields(name, status) ==
            [("_index", Str(name.0)), ("_id", Str(name.1)), ("status", Num(Engine.StatusText(status)))]
    ensures ValidFields(ActedFields(name, status))
    ensures Get(ActedFields(name, status), "_index") == Some(Str(name.0))
    ensures Get(ActedFields(name, status), "_id") == Some(Str(name.1))
  {
    StatusNumber(status);
    var s := ("status", Num(Engine.StatusText(status)));
    ConsValid(s, []);
    ConsValid(("_id", Str(name.1)), [s] + []);
    ConsValid(("_index", Str(name.0)), [("_id", Str(name.1))] + ([s] + []));
  }

  lemma StatusNumber(status: nat)
    ensures Valid(Num(Engine.StatusText(status))) && Valid(Num("400"))
  {
    ThreeDigits("400");
    if status == 200 {
      ThreeDigits("200");
    } else if status == 201 {
      ThreeDigits("201");
    } else if status == 404 {
      ThreeDigits("404");
    } else {
      ThreeDigits("409");
    }
  }

  lemma ZeroNumber()
    ensures Valid(Num("0"))
  {
    assert Digits("0"[1..]) == 0;
    assert Digits("0") == 1 && "0"[1..] == "";
  }

  lemma ThreeDigits(s: string)
    requires |s| == 3 && s[0] != '0' && Digit(s[0]) && Digit(s[1]) && Digit(s[2])
    ensures IsNumber(s) && AllNumberChars(s)
  {
    assert Digits(s[1..][1..][1..]) == 0;
    assert Digits(s[1..][1..]) == 1;
    assert Digits(s[1..]) == 2;
    assert Digits(s) == 3;
    assert s[3..] == "";
  }

  lemma ActedShaped(sc: Scope, t: string, index: string, x: string, status: nat)
    requires sc.Sound()
    ensures ResultShaped(Obj(ActedFields((sc.tenancy.sharedIndex, sc.shape.Physical(t, x)), status)),
                         ViewOf(sc.tenancy.Decide(t, index), index))
            == Obj(ActedFields((index, x), status))
  {
    var was := (sc.tenancy.sharedIndex, sc.shape.Physical(t, x));
    var rest := [("status", Num(Engine.StatusText(status)))] + [];
    ActedFieldsAre(was, status);
    ActedFieldsAre((index, was.1), status);
    InsertHere("_index", Str(index), Str(was.0), [("_id", Str(was.1))] + rest);
    UnmapMapped(sc.tenancy.idTemplate, t, x);
    InsertLater(("_index", Str(index)), [("_id", Str(was.1))] + rest, "_id", Str(x));
    InsertHere("_id", Str(x), Str(was.1), rest);
  }

  lemma KeylessShaped(v: View)
    ensures ItemShaped(Engine.OutcomeJson<Key>(Engine.Keyless, PhysicalNaming()), v)
            == Engine.OutcomeJson<string>(Engine.Keyless, LogicalNaming(v.index))
    ensures Valid(Engine.OutcomeJson<Key>(Engine.Keyless, PhysicalNaming()))
  {
    StatusNumber(400);
    OneField(("status", Num("400")));
    OneField(("delete", Obj([("status", Num("400"))])));
  }

  lemma OutcomeShaped(sc: Scope, t: string, index: string, o: Engine.Outcome<string>)
    requires sc.Sound()
    ensures var answer := Engine.OutcomeJson(PhysicalOutcome(sc, t, o), PhysicalNaming());
            && Valid(answer)
            && ItemShaped(answer, ViewOf(sc.tenancy.Decide(t, index), index))
               == Engine.OutcomeJson(o, LogicalNaming(index))
  {
    match o
    case Keyless => KeylessShaped(ViewOf(sc.tenancy.Decide(t, index), index));
    case Acted(action, x, status) =>
      var was := (sc.tenancy.sharedIndex, sc.shape.Physical(t, x));
      ActedFieldsAre(was, status);
      ActedFieldsAre((index, x), status);
      ActedShaped(sc, t, index, x, status);
      OneField((Verb(action), Obj(ActedFields(was, status))));
  }

  lemma {:induction false} OutcomesShaped(sc: Scope, t: string, index: string, os: seq<Engine.Outcome<string>>)
    requires sc.Sound()
    ensures var answers := Engine.OutcomesJson(PhysicalOutcomes(sc, t, os), PhysicalNaming());
            && ValidItems(answers)
            && ItemsShaped(answers, ViewOf(sc.tenancy.Decide(t, index), index))
               == Engine.OutcomesJson(os, LogicalNaming(index))
  {
    if os != [] {
      OutcomeShaped(sc, t, index, os[0]);
      OutcomesShaped(sc, t, index, os[1..]);
      assert PhysicalOutcomes(sc, t, os)[1..] == PhysicalOutcomes(sc, t, os[1..]);
    }
  }

  lemma BatchJsonArray(items: seq<Json>, now: seq<Json>)
    requires ValidItems(items)
    ensures Valid(Engine.BatchJson(items)) && ArrayAt(Engine.BatchJson(items), "items") == Some(items)
    ensures WithArray(Engine.BatchJson(items), "items", now) == Engine.BatchJson(now)
  {
    ZeroNumber();
    var took, last := ("took", Num("0")), [("items", Arr(items))];
    OneField(("items", Arr(items)));
    ConsValid(took, last);
    assert [took] + last == [("took", Num("0")), ("items", Arr(items))];
    InsertLater(took, last, "items", Arr(now));
    InsertHere("items", Arr(now), Arr(items), []);
    assert last == last + [];
  }

  lemma BatchAnswerShaped(v: View, items: seq<Json>, now: seq<Json>)
    requires ValidItems(items) && ItemsShaped(items, v) == now
    ensures ShapeBulk(v, Print(Engine.BatchJson(items))) == Ok(Print(Engine.BatchJson(now)))
  {
    BatchJsonArray(items, now);
    ShapePrinted(v, Engine.BatchJson(items), "items", items);
  }

  lemma BulkShaped(sc: Scope, t: string, index: string, os: seq<Engine.Outcome<string>>)
    requires sc.Sound()
    ensures var answers := Engine.OutcomesJson(PhysicalOutcomes(sc, t, os), PhysicalNaming());
            ShapeBulk(ViewOf(sc.tenancy.Decide(t, index), index), Print(Engine.BatchJson(answers)))
            == Ok(Print(Engine.BatchJson(Engine.OutcomesJson(os, LogicalNaming(index)))))
  {
    OutcomesShaped(sc, t, index, os);
    BatchAnswerShaped(ViewOf(sc.tenancy.Decide(t, index), index),
                      Engine.OutcomesJson(PhysicalOutcomes(sc, t, os), PhysicalNaming()),
                      Engine.OutcomesJson(os, LogicalNaming(index)));
  }
}
