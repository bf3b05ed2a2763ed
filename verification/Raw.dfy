/** The texts a client can be shown of one answer: the tenant's own, the upstream's raw one, and
    one shaped under another view than the tenant's. Each pair is equal exactly when the
    documents it names have the same names in both. */
module Raw {
  import opened Common
  import opened Json
  import opened Rewrite
  import opened Ndjson
  import opened Transform
  import opened Response
  import opened Shared
  import opened Wire
  import opened Replies
  import Engine

  type Own = map<string, Json>

  // ----- the documents an operation names -----

  /** The operation names no document. */
  predicate NamesNothing(op: Engine.Op<string>) {
    match op
    case Fetch(_) => false
    case FetchMany(xs) => xs == []
    case Batch(steps) => forall i :: 0 <= i < |steps| ==> steps[i].KeylessStep?
    case _ => true
  }

  /** Every document the operation names has the same name in both. */
  predicate NamedSame(op: Engine.Op<string>, n: Engine.Naming<string>, m: Engine.Naming<string>) {
    match op
    case Fetch(x) => n(x) == m(x)
    case FetchMany(xs) => forall i :: 0 <= i < |xs| ==> n(xs[i]) == m(xs[i])
    case Batch(steps) => forall i :: 0 <= i < |steps| ==> steps[i].KeylessStep? || n(steps[i].key) == m(steps[i].key)
    case _ => true
  }

  lemma {:induction false} OutcomeKeys<K(!new)>(docs: map<K, Json>, steps: seq<Engine.Step<K>>)
    ensures |Engine.RunSteps(docs, steps).1| == |steps|
    ensures forall i :: 0 <= i < |steps| ==>
              var o := Engine.RunSteps(docs, steps).1[i];
              if steps[i].KeylessStep? then o.Keyless? else o.Acted? && o.key == steps[i].key
    decreases steps
  {
    if steps != [] { OutcomeKeys(Engine.RunStep(docs, steps[0]).0, steps[1..]); }
  }

  // ----- answers are well formed -----

  lemma DocValid(name: (string, string), doc: Option<Json>)
    requires doc.Some? ==> Valid(doc.value)
    ensures Valid(Obj(Engine.DocFields(name, doc)))
  {
    FetchFieldsValid(name, doc);
    FetchFieldsAre(name, doc);
  }

  predicate ValidDocs<K(!new)>(docs: seq<(K, Option<Json>)>) {
    forall i :: 0 <= i < |docs| ==> docs[i].1.Some? ==> Valid(docs[i].1.value)
  }

  lemma {:induction false} DocsValid<K(!new)>(docs: seq<(K, Option<Json>)>, naming: Engine.Naming<K>)
    requires ValidDocs(docs)
    ensures ValidItems(Engine.DocsJson(docs, naming))
  {
    if docs != [] {
      DocValid(naming(docs[0].0), docs[0].1);
      DocsValid(docs[1..], naming);
    }
  }

  lemma OutcomeValid<K>(o: Engine.Outcome<K>, naming: Engine.Naming<K>)
    ensures Valid(Engine.OutcomeJson(o, naming))
  {
    match o
    case Keyless =>
      StatusNumber(400);
      OneField(("status", Num("400")));
      OneField(("delete", Obj([("status", Num("400"))])));
    case Acted(action, key, status) =>
      ActedFieldsAre(naming(key), status);
      OneField((Verb(action), Obj(ActedFields(naming(key), status))));
  }

  lemma {:induction false} OutcomesValid<K>(os: seq<Engine.Outcome<K>>, naming: Engine.Naming<K>)
    ensures ValidItems(Engine.OutcomesJson(os, naming))
  {
    if os != [] {
      OutcomeValid(os[0], naming);
      OutcomesValid(os[1..], naming);
    }
  }

  /** Equal texts are texts of equal values. */
  lemma PrintInjective(a: Json, b: Json)
    requires Valid(a) && Valid(b)
    ensures Print(a) == Print(b) <==> a == b
  {
    ParsePrint(a);
    ParsePrint(b);
  }

  // ----- the texts of lists of answers -----

  function DocText(name: (string, string), doc: Option<Json>): string {
    Print(Obj(Engine.DocFields(name, doc)))
  }

  function MgetText<K>(docs: seq<(K, Option<Json>)>, naming: Engine.Naming<K>): string {
    Print(Obj([("docs", Arr(Engine.DocsJson(docs, naming)))]))
  }

  function BatchText<K>(os: seq<Engine.Outcome<K>>, naming: Engine.Naming<K>): string {
    Print(Engine.BatchJson(Engine.OutcomesJson(os, naming)))
  }

  lemma DocsDiffer(n: (string, string), a: Option<Json>, m: (string, string), b: Option<Json>)
    ensures Engine.DocFields(n, a) == Engine.DocFields(m, b) <==> n == m && a == b
  {
    var fs, gs := Engine.DocFields(n, a), Engine.DocFields(m, b);
    assert fs[0] == ("_index", Str(n.0)) && gs[0] == ("_index", Str(m.0));
    assert fs[1] == ("_id", Str(n.1)) && gs[1] == ("_id", Str(m.1));
    if a.Some? { assert fs[3] == ("_source", a.value); }
    if b.Some? { assert gs[3] == ("_source", b.value); }
  }

  lemma DocTextsIff(n: (string, string), a: Option<Json>, m: (string, string), b: Option<Json>)
    requires (a.Some? ==> Valid(a.value)) && (b.Some? ==> Valid(b.value))
    ensures DocText(n, a) == DocText(m, b) <==> n == m && a == b
  {
    DocValid(n, a);
    DocValid(m, b);
    DocsDiffer(n, a, m, b);
    PrintInjective(Obj(Engine.DocFields(n, a)), Obj(Engine.DocFields(m, b)));
  }

  lemma ArrayTextsIff(xs: seq<Json>, ys: seq<Json>)
    requires ValidItems(xs) && ValidItems(ys)
    ensures Print(Obj([("docs", Arr(xs))])) == Print(Obj([("docs", Arr(ys))])) <==> xs == ys
  {
    OneField(("docs", Arr(xs)));
    OneField(("docs", Arr(ys)));
    PrintInjective(Obj([("docs", Arr(xs))]), Obj([("docs", Arr(ys))]));
    assert [("docs", Arr(xs))][0].1.items == xs && [("docs", Arr(ys))][0].1.items == ys;
  }

  /** Two lists of fetched documents, of the same length, are one text exactly when they agree
      document by document in name and content. */
  lemma MgetTextsIff<K(!new), L(!new)>(docs: seq<(K, Option<Json>)>, n: Engine.Naming<K>,
                                       own: seq<(L, Option<Json>)>, m: Engine.Naming<L>)
    requires |docs| == |own| && ValidDocs(docs) && ValidDocs(own)
    ensures MgetText(docs, n) == MgetText(own, m) <==>
            forall i :: 0 <= i < |docs| ==> n(docs[i].0) == m(own[i].0) && docs[i].1 == own[i].1
  {
    var xs, ys := Engine.DocsJson(docs, n), Engine.DocsJson(own, m);
    DocsValid(docs, n);
    DocsValid(own, m);
    ArrayTextsIff(xs, ys);
    forall i | 0 <= i < |docs|
      ensures xs[i] == ys[i] <==> n(docs[i].0) == m(own[i].0) && docs[i].1 == own[i].1
    {
      DocsDiffer(n(docs[i].0), docs[i].1, m(own[i].0), own[i].1);
    }
  }

  lemma BatchTextsEqual(xs: seq<Json>, ys: seq<Json>)
    requires ValidItems(xs) && ValidItems(ys)
    ensures Print(Engine.BatchJson(xs)) == Print(Engine.BatchJson(ys)) <==> xs == ys
  {
    BatchJsonArray(xs, xs);
    BatchJsonArray(ys, ys);
    PrintInjective(Engine.BatchJson(xs), Engine.BatchJson(ys));
  }

  /** The outcome of the same action, under two names. */
  predicate SameOutcome<K, L>(o: Engine.Outcome<K>, p: Engine.Outcome<L>) {
    match o
    case Keyless => p.Keyless?
    case Acted(action, _, status) => p.Acted? && p.action == action && p.status == status
  }

  predicate NamedAlike<K, L>(o: Engine.Outcome<K>, n: Engine.Naming<K>, p: Engine.Outcome<L>, m: Engine.Naming<L>) {
    o.Keyless? || (p.Acted? && n(o.key) == m(p.key))
  }

  lemma OutcomesDiffer<K, L>(o: Engine.Outcome<K>, n: Engine.Naming<K>, p: Engine.Outcome<L>, m: Engine.Naming<L>)
    requires SameOutcome(o, p)
    ensures Engine.OutcomeJson(o, n) == Engine.OutcomeJson(p, m) <==> NamedAlike(o, n, p, m)
  {
    if o.Acted? {
      var fs := Engine.OutcomeJson(o, n).fields[0].1.fields;
      var gs := Engine.OutcomeJson(p, m).fields[0].1.fields;
      assert fs[0] == ("_index", Str(n(o.key).0)) && fs[1] == ("_id", Str(n(o.key).1));
      assert gs[0] == ("_index", Str(m(p.key).0)) && gs[1] == ("_id", Str(m(p.key).1));
    }
  }

  /** Two lists of the same outcomes are one text exactly when they agree in every name. */
  lemma BatchTextsIff<K(!new), L(!new)>(os: seq<Engine.Outcome<K>>, n: Engine.Naming<K>,
                                        own: seq<Engine.Outcome<L>>, m: Engine.Naming<L>)
    requires |os| == |own| && forall i :: 0 <= i < |os| ==> SameOutcome(os[i], own[i])
    ensures BatchText(os, n) == BatchText(own, m) <==>
            forall i :: 0 <= i < |os| ==> NamedAlike(os[i], n, own[i], m)
  {
    var xs, ys := Engine.OutcomesJson(os, n), Engine.OutcomesJson(own, m);
    OutcomesValid(os, n);
    OutcomesValid(own, m);
    BatchTextsEqual(xs, ys);
    forall i | 0 <= i < |os| ensures xs[i] == ys[i] <==> NamedAlike(os[i], n, own[i], m) {
      OutcomesDiffer(os[i], n, own[i], m);
    }
  }

  predicate Readable(sc: Scope, a: Engine.Answer<string>) {
    match a
    case Fetched(_, doc) => StorableOption(sc, doc)
    case FetchedMany(docs) => StorableDocs(sc, docs)
    case BatchDone(_) => true
    case _ => false
  }

  lemma StoredValid(sc: Scope, t: string, docs: seq<(string, Option<Json>)>)
    requires StorableDocs(sc, docs)
    ensures ValidDocs(docs) && ValidDocs(PhysicalDocs(sc, t, docs))
  {
    forall i | 0 <= i < |docs|
      ensures docs[i].1.Some? ==> Valid(docs[i].1.value)
                                  && Valid(PhysicalDocs(sc, t, docs)[i].1.value)
    {
      assert StorableOption(sc, docs[i].1);
      if docs[i].1.Some? { StampValid(sc, t, docs[i].1.value); }
    }
  }

  function TextOf<K>(a: Engine.Answer<K>, naming: Engine.Naming<K>): string {
    Print(Engine.AnswerJson(a, naming))
  }

  /** Every document the answer names has the same name in both. */
  predicate AgreeOn(a: Engine.Answer<string>, n: Engine.Naming<string>, m: Engine.Naming<string>) {
    match a
    case Fetched(x, _) => n(x) == m(x)
    case FetchedMany(docs) => forall i :: 0 <= i < |docs| ==> n(docs[i].0) == m(docs[i].0)
    case BatchDone(os) => forall i :: 0 <= i < |os| ==> NamedAlike(os[i], n, os[i], m)
    case _ => true
  }

  /** One answer under two namings is one text exactly when every document it names has the same
      name in both. */
  predicate NamingDecides(a: Engine.Answer<string>, n: Engine.Naming<string>, m: Engine.Naming<string>) {
    TextOf(a, n) == TextOf(a, m) <==> AgreeOn(a, n, m)
  }

  lemma NamingFetched(x: string, doc: Option<Json>, n: Engine.Naming<string>, m: Engine.Naming<string>)
    requires doc.Some? ==> Valid(doc.value)
    ensures NamingDecides(Engine.Fetched(x, doc), n, m)
  {
    DocTextsIff(n(x), doc, m(x), doc);
  }

  lemma NamingMget(docs: seq<(string, Option<Json>)>, n: Engine.Naming<string>, m: Engine.Naming<string>)
    requires ValidDocs(docs)
    ensures NamingDecides(Engine.FetchedMany(docs), n, m)
  {
    MgetTextsIff(docs, n, docs, m);
  }

  lemma NamingBatch(os: seq<Engine.Outcome<string>>, n: Engine.Naming<string>, m: Engine.Naming<string>)
    ensures NamingDecides(Engine.BatchDone(os), n, m)
  {
    BatchTextsIff(os, n, os, m);
  }

  lemma NamingTextIff(sc: Scope, a: Engine.Answer<string>, n: Engine.Naming<string>, m: Engine.Naming<string>)
    requires Readable(sc, a)
    ensures NamingDecides(a, n, m)
  {
    match a
    case Fetched(x, doc) => NamingFetched(x, doc, n, m);
    case FetchedMany(docs) =>
      StoredValid(sc, "", docs);
      NamingMget(docs, n, m);
    case BatchDone(os) => NamingBatch(os, n, m);
  }

  lemma AgreeMany(own: Own, xs: seq<string>, n: Engine.Naming<string>, m: Engine.Naming<string>)
    ensures AgreeOn(Engine.FetchedMany(Engine.LookupAll(own, xs)), n, m) <==>
            forall i :: 0 <= i < |xs| ==> n(xs[i]) == m(xs[i])
  {
    var docs := Engine.LookupAll(own, xs);
    assert forall i :: 0 <= i < |xs| ==> docs[i].0 == xs[i];
  }

  lemma AgreeBatch(own: Own, steps: seq<Engine.Step<string>>, n: Engine.Naming<string>, m: Engine.Naming<string>)
    ensures AgreeOn(Engine.BatchDone(Engine.RunSteps(own, steps).1), n, m) <==>
            forall i :: 0 <= i < |steps| ==> steps[i].KeylessStep? || n(steps[i].key) == m(steps[i].key)
  {
    var os := Engine.RunSteps(own, steps).1;
    OutcomeKeys(own, steps);
    forall i | 0 <= i < |steps|
      ensures NamedAlike(os[i], n, os[i], m) <==> steps[i].KeylessStep? || n(steps[i].key) == m(steps[i].key)
    {
    }
  }

  lemma AgreeAnswered(own: Own, op: Engine.Op<string>, n: Engine.Naming<string>, m: Engine.Naming<string>)
    ensures AgreeOn(Engine.Exec(own, op).1, n, m) <==> NamedSame(op, n, m)
  {
    match op
    case FetchMany(xs) => AgreeMany(own, xs, n, m);
    case Batch(steps) => AgreeBatch(own, steps, n, m);
    case _ =>
  }

  // ----- the raw text -----

  /** The shared store's name of a tenant's document is the tenant's own name. */
  predicate SameName(sc: Scope, t: string, index: string, x: string) {
    sc.tenancy.sharedIndex == index && sc.shape.Physical(t, x) == x
  }

  predicate RawSame(sc: Scope, t: string, index: string, a: Engine.Answer<string>) {
    match a
    case Fetched(x, doc) => SameName(sc, t, index, x) && doc.None?
    case FetchedMany(docs) => forall i :: 0 <= i < |docs| ==> SameName(sc, t, index, docs[i].0) && docs[i].1.None?
    case BatchDone(os) => forall i :: 0 <= i < |os| ==> os[i].Keyless? || SameName(sc, t, index, os[i].key)
    case _ => true
  }

  lemma StampShows(sc: Scope, t: string, doc: Option<Json>)
    requires StorableOption(sc, doc)
    ensures StampOption(sc, t, doc) == doc <==> doc.None?
    ensures StampOption(sc, t, doc).Some? ==> Valid(StampOption(sc, t, doc).value) && Valid(doc.value)
  {
    if doc.Some? {
      StampValid(sc, t, doc.value);
      assert |sc.Stamp(t, doc.value).fields| == |doc.value.fields| + 1;
    }
  }

  lemma RawMget(sc: Scope, t: string, index: string, docs: seq<(string, Option<Json>)>)
    requires StorableDocs(sc, docs)
    ensures MgetText(PhysicalDocs(sc, t, docs), PhysicalNaming()) == MgetText(docs, LogicalNaming(index)) <==>
            forall i :: 0 <= i < |docs| ==> SameName(sc, t, index, docs[i].0) && docs[i].1.None?
  {
    StoredValid(sc, t, docs);
    MgetTextsIff(PhysicalDocs(sc, t, docs), PhysicalNaming(), docs, LogicalNaming(index));
    forall i | 0 <= i < |docs| ensures StampOption(sc, t, docs[i].1) == docs[i].1 <==> docs[i].1.None? {
      assert StorableOption(sc, docs[i].1);
      StampShows(sc, t, docs[i].1);
    }
  }

  lemma RawFetched(sc: Scope, t: string, index: string, x: string, doc: Option<Json>)
    requires StorableOption(sc, doc)
    ensures TextOf(Engine.Fetched(sc.KeyOf(t, x), StampOption(sc, t, doc)), PhysicalNaming())
            == TextOf(Engine.Fetched(x, doc), LogicalNaming(index))
            <==> SameName(sc, t, index, x) && doc.None?
  {
    StampShows(sc, t, doc);
    DocTextsIff(PhysicalNaming()(sc.KeyOf(t, x)), StampOption(sc, t, doc), (index, x), doc);
  }

  lemma RawBatch(sc: Scope, t: string, index: string, os: seq<Engine.Outcome<string>>)
    ensures BatchText(PhysicalOutcomes(sc, t, os), PhysicalNaming()) == BatchText(os, LogicalNaming(index))
            <==> forall i :: 0 <= i < |os| ==> os[i].Keyless? || SameName(sc, t, index, os[i].key)
  {
    var was := PhysicalOutcomes(sc, t, os);
    BatchTextsIff(was, PhysicalNaming(), os, LogicalNaming(index));
    forall i | 0 <= i < |os|
      ensures NamedAlike(was[i], PhysicalNaming(), os[i], LogicalNaming(index))
              <==> os[i].Keyless? || SameName(sc, t, index, os[i].key)
    {
      RawOutcome(sc, t, index, os[i]);
    }
  }

  lemma RawOutcome(sc: Scope, t: string, index: string, o: Engine.Outcome<string>)
    ensures NamedAlike(PhysicalOutcome(sc, t, o), PhysicalNaming(), o, LogicalNaming(index))
            <==> o.Keyless? || SameName(sc, t, index, o.key)
  {
  }

  /** The raw text of an answer is the tenant's own text exactly when every document it names is
      absent and named alike. */
  lemma RawTextIff(sc: Scope, t: string, index: string, a: Engine.Answer<string>)
    requires sc.Sound() && Readable(sc, a)
    ensures TextOf(PhysicalAnswer(sc, t, a), PhysicalNaming()) == TextOf(a, LogicalNaming(index))
            <==> RawSame(sc, t, index, a)
  {
    match a
    case Fetched(x, doc) => RawFetched(sc, t, index, x, doc);
    case FetchedMany(docs) => RawMget(sc, t, index, docs);
    case BatchDone(os) => RawBatch(sc, t, index, os);
  }

  /** The same, asked of the operation and the tenant's own store. */
  predicate RawAlike(sc: Scope, t: string, index: string, own: Own, op: Engine.Op<string>) {
    match op
    case Fetch(x) => SameName(sc, t, index, x) && x !in own
    case FetchMany(xs) => forall i :: 0 <= i < |xs| ==> SameName(sc, t, index, xs[i]) && xs[i] !in own
    case Batch(steps) => forall i :: 0 <= i < |steps| ==> steps[i].KeylessStep? || SameName(sc, t, index, steps[i].key)
    case _ => true
  }

  lemma RawAlikeMany(sc: Scope, t: string, index: string, own: Own, xs: seq<string>)
    ensures RawSame(sc, t, index, Engine.FetchedMany(Engine.LookupAll(own, xs)))
            <==> RawAlike(sc, t, index, own, Engine.FetchMany(xs))
  {
    var docs := Engine.LookupAll(own, xs);
    assert forall i :: 0 <= i < |xs| ==> docs[i] == (xs[i], Engine.Lookup(own, xs[i]));
  }

  lemma RawAlikeBatch(sc: Scope, t: string, index: string, own: Own, steps: seq<Engine.Step<string>>)
    ensures RawSame(sc, t, index, Engine.BatchDone(Engine.RunSteps(own, steps).1))
            <==> RawAlike(sc, t, index, own, Engine.Batch(steps))
  {
    OutcomeKeys(own, steps);
  }

  lemma RawAlikeAnswered(sc: Scope, t: string, index: string, own: Own, op: Engine.Op<string>)
    ensures RawSame(sc, t, index, Engine.Exec(own, op).1) <==> RawAlike(sc, t, index, own, op)
  {
    match op
    case FetchMany(xs) => RawAlikeMany(sc, t, index, own, xs);
    case Batch(steps) => RawAlikeBatch(sc, t, index, own, steps);
    case _ =>
  }

  /** No id is its own physical id, when the template puts text around it. */
  lemma PhysicalMoves(sc: Scope, t: string, x: string)
    requires Named(sc, t)
    ensures sc.shape.Physical(t, x) != x
  {
    assert |sc.shape.Physical(t, x)| == |sc.shape.Prefix(t)| + |x| + |sc.shape.Suffix(t)|;
    assert |sc.shape.Prefix(t) + sc.shape.Suffix(t)| > 0;
  }

  /** Under a template with text around the id, or a logical index of another name, that is:
      no document is named. */
  lemma RawAlikeNamesNothing(sc: Scope, t: string, index: string, own: Own, op: Engine.Op<string>)
    requires Named(sc, t) || sc.tenancy.sharedIndex != index
    ensures RawAlike(sc, t, index, own, op) <==> NamesNothing(op)
  {
    forall x ensures !SameName(sc, t, index, x) {
      if Named(sc, t) { PhysicalMoves(sc, t, x); }
    }
    match op
    case FetchMany(xs) => if xs != [] { assert !SameName(sc, t, index, xs[0]); }
    case _ =>
  }

  // ----- the text under another view -----

  /** What a partition's view makes of a physical id: its own logical id, or the id as it is. */
  function Unmapped(sc: Scope, partition: string, id: string): string {
    var logical := Strip(id, sc.shape.Prefix(partition), sc.shape.Suffix(partition));
    if logical.Some? then logical.value else id
  }

  /** How documents of `t` are named when shaped under the view of `partition` and `index`. */
  function ForeignNaming(sc: Scope, t: string, partition: string, index: string): Engine.Naming<string> {
    x => (index, Unmapped(sc, partition, sc.shape.Physical(t, x)))
  }

  /** The view of another partition unmaps the id exactly when the partition has the same physical
      id for it; or, for tenants without text around their ids, when it maps no id there. */
  lemma UnmappedIff(sc: Scope, t: string, partition: string, x: string)
    ensures Unmapped(sc, partition, sc.shape.Physical(t, x)) == x <==>
            sc.shape.Physical(partition, x) == sc.shape.Physical(t, x)
            || (sc.shape.Physical(t, x) == x && Strip(x, sc.shape.Prefix(partition), sc.shape.Suffix(partition)).None?)
  {
    var id := sc.shape.Physical(t, x);
    StripPhysical(sc.shape, partition, x);
    var logical := Strip(id, sc.shape.Prefix(partition), sc.shape.Suffix(partition));
    if logical == Some(x) { StripMeans(id, sc.shape.Prefix(partition), x, sc.shape.Suffix(partition)); }
  }

  lemma StripMeans(s: string, prefix: string, middle: string, suffix: string)
    requires Strip(s, prefix, suffix) == Some(middle)
    ensures s == prefix + middle + suffix
  {
  }

  /** Any answer about a stamped document, shaped as a get of any id under any view: its index
      and id are the view's and the request's, its source the tenant's. */
  lemma AnyGetShaped(sc: Scope, t: string, partition: string, index: string, d: string,
                     was: (string, string), doc: Option<Json>)
    requires sc.Sound() && StorableOption(sc, doc)
    ensures var answer := Engine.DocFields(was, StampOption(sc, t, doc));
            && ValidFields(answer)
            && GetShaped(Obj(answer), ViewOf(sc.tenancy.Decide(partition, index), index), d)
               == Obj(Engine.DocFields((index, d), doc))
  {
    var stamped := StampOption(sc, t, doc);
    var answer := FetchFields(was, stamped);
    var v := ViewOf(sc.tenancy.Decide(partition, index), index);
    FetchFieldsAre(was, stamped);
    FetchFieldsAre((index, d), doc);
    StampShows(sc, t, doc);
    FetchFieldsValid(was, stamped);
    var named := Insert(Insert(answer, "_index", Str(index)), "_id", Str(d));
    GetInsert(answer, "_index", Str(index), "_source");
    GetInsert(Insert(answer, "_index", Str(index)), "_id", Str(d), "_source");
    FetchFieldsRenamed(was, (index, d), stamped, SourceOf(doc));
    if doc.Some? { StampStripped(sc, t, partition, index, doc.value); }
  }

  lemma StampStripped(sc: Scope, t: string, partition: string, index: string, doc: Json)
    requires sc.Sound() && sc.Storable(doc)
    ensures StripFields(sc.Stamp(t, doc), ViewOf(sc.tenancy.Decide(partition, index), index).names) == Obj(doc.fields)
  {
    var injected := [(sc.tenancy.injectField, Str(t))];
    StampValid(sc, t, doc);
    StripAdded(doc.fields, injected);
    assert ViewOf(sc.tenancy.Decide(partition, index), index).names == Names(injected);
  }

  lemma ForeignId(sc: Scope, t: string, partition: string, index: string, x: string, answer: Fields)
    requires sc.Sound() && Get(answer, "_id") == Some(Str(sc.shape.Physical(t, x)))
    ensures var v := ViewOf(sc.tenancy.Decide(partition, index), index);
            var named := Insert(answer, "_index", Str(index));
            IdUnmapped(named, v) == Insert(named, "_id", Str(Unmapped(sc, partition, sc.shape.Physical(t, x))))
  {
    var v := ViewOf(sc.tenancy.Decide(partition, index), index);
    var named := Insert(answer, "_index", Str(index));
    GetInsert(answer, "_index", Str(index), "_id");
    if LogicalId(v, Get(named, "_id")).None? { InsertSame(named, "_id", Str(sc.shape.Physical(t, x))); }
  }

  lemma ForeignHit(sc: Scope, t: string, partition: string, index: string, x: string, doc: Option<Json>)
    requires sc.Sound() && StorableOption(sc, doc)
    ensures var answer := Engine.DocFields(PhysicalNaming()(sc.KeyOf(t, x)), StampOption(sc, t, doc));
            && ValidFields(answer)
            && HitShaped(Obj(answer), ViewOf(sc.tenancy.Decide(partition, index), index))
               == Obj(Engine.DocFields(ForeignNaming(sc, t, partition, index)(x), doc))
  {
    var was := PhysicalNaming()(sc.KeyOf(t, x));
    var answer := Engine.DocFields(was, StampOption(sc, t, doc));
    FetchFieldsAre(was, StampOption(sc, t, doc));
    StampShows(sc, t, doc);
    FetchFieldsValid(was, StampOption(sc, t, doc));
    ForeignId(sc, t, partition, index, x, answer);
    AnyGetShaped(sc, t, partition, index, Unmapped(sc, partition, sc.shape.Physical(t, x)), was, doc);
  }

  lemma ForeignHits(sc: Scope, t: string, partition: string, index: string, docs: seq<(string, Option<Json>)>)
    requires sc.Sound() && StorableDocs(sc, docs)
    ensures HitsShaped(Engine.DocsJson(PhysicalDocs(sc, t, docs), PhysicalNaming()),
                       ViewOf(sc.tenancy.Decide(partition, index), index))
            == Engine.DocsJson(docs, ForeignNaming(sc, t, partition, index))
  {
    var v := ViewOf(sc.tenancy.Decide(partition, index), index);
    var was := Engine.DocsJson(PhysicalDocs(sc, t, docs), PhysicalNaming());
    forall i | 0 <= i < |docs|
      ensures HitShaped(was[i], v) == Obj(Engine.DocFields(ForeignNaming(sc, t, partition, index)(docs[i].0), docs[i].1))
    {
      assert StorableOption(sc, docs[i].1);
      ForeignHit(sc, t, partition, index, docs[i].0, docs[i].1);
    }
  }

  lemma ForeignResult(sc: Scope, t: string, partition: string, index: string, x: string, status: nat)
    requires sc.Sound()
    ensures ResultShaped(Obj(ActedFields(PhysicalNaming()(sc.KeyOf(t, x)), status)),
                         ViewOf(sc.tenancy.Decide(partition, index), index))
            == Obj(ActedFields(ForeignNaming(sc, t, partition, index)(x), status))
  {
    var was := (sc.tenancy.sharedIndex, sc.shape.Physical(t, x));
    var rest := [("status", Num(Engine.StatusText(status)))] + [];
    var d := Unmapped(sc, partition, was.1);
    ActedFieldsAre(was, status);
    ForeignId(sc, t, partition, index, x, ActedFields(was, status));
    InsertHere("_index", Str(index), Str(was.0), [("_id", Str(was.1))] + rest);
    InsertLater(("_index", Str(index)), [("_id", Str(was.1))] + rest, "_id", Str(d));
    InsertHere("_id", Str(d), Str(was.1), rest);
  }

  lemma ActedJson<K>(action: BulkAction, key: K, status: nat, naming: Engine.Naming<K>)
    ensures Engine.OutcomeJson(Engine.Acted(action, key, status), naming)
            == Obj([(Verb(action), Obj(ActedFields(naming(key), status)))])
  {
    ActedFieldsAre(naming(key), status);
  }

  lemma ItemOfOne(verb: string, result: Json, v: View)
    ensures ItemShaped(Obj([(verb, result)]), v) == Obj([(verb, ResultShaped(result, v))])
  {
    assert [(verb, result)][1..] == [] && [(verb, ResultShaped(result, v))] + [] == [(verb, ResultShaped(result, v))];
  }

  lemma ForeignItem(sc: Scope, t: string, partition: string, index: string, o: Engine.Outcome<string>)
    requires sc.Sound()
    ensures ItemShaped(Engine.OutcomeJson(PhysicalOutcome(sc, t, o), PhysicalNaming()),
                       ViewOf(sc.tenancy.Decide(partition, index), index))
            == Engine.OutcomeJson(o, ForeignNaming(sc, t, partition, index))
  {
    match o
    case Keyless => KeylessShaped(ViewOf(sc.tenancy.Decide(partition, index), index));
    case Acted(action, x, status) =>
      ActedJson(action, sc.KeyOf(t, x), status, PhysicalNaming());
      ActedJson(action, x, status, ForeignNaming(sc, t, partition, index));
      ItemOfOne(Verb(action), Obj(ActedFields(PhysicalNaming()(sc.KeyOf(t, x)), status)),
                ViewOf(sc.tenancy.Decide(partition, index), index));
      ForeignResult(sc, t, partition, index, x, status);
  }

  lemma ForeignItems(sc: Scope, t: string, partition: string, index: string, os: seq<Engine.Outcome<string>>)
    requires sc.Sound()
    ensures ItemsShaped(Engine.OutcomesJson(PhysicalOutcomes(sc, t, os), PhysicalNaming()),
                        ViewOf(sc.tenancy.Decide(partition, index), index))
            == Engine.OutcomesJson(os, ForeignNaming(sc, t, partition, index))
  {
    var v := ViewOf(sc.tenancy.Decide(partition, index), index);
    var was := Engine.OutcomesJson(PhysicalOutcomes(sc, t, os), PhysicalNaming());
    forall i | 0 <= i < |os|
      ensures ItemShaped(was[i], v) == Engine.OutcomeJson(os[i], ForeignNaming(sc, t, partition, index))
    {
      ForeignItem(sc, t, partition, index, os[i]);
    }
  }
}
