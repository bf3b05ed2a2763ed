/** One shared physical index standing for many private stores: where a tenant's document
    lives, how it is stamped, and why running an operation on the shared index is running
    it on the tenant's own store. */
module Shared {
  import opened Common
  import opened Json
  import opened Rewrite
  import opened Ndjson
  import opened Transform
  import opened Route
  import opened Reference
  import opened Engine

  datatype Key = Key(cluster: string, index: string, id: string)

  type Private = map<string, Json>

  /** A shared-index tenancy whose id template reads one body field. */
  datatype Scope = Scope(tenancy: Tenancy, shape: IdShape) {
    predicate Sound() {
      tenancy.isolation == SharedIndex && TemplateShape(tenancy.idTemplate) == Ok(shape)
      && PlainIndex(tenancy.sharedIndex)
    }

    function KeyOf(t: string, logical: string): Key {
      Key(tenancy.ClusterFor(t), tenancy.sharedIndex, shape.Physical(t, logical))
    }

    /** A document as the shared index holds it. */
    function Stamp(t: string, doc: Json): Json {
      if doc.Obj? then Obj(doc.fields + [(tenancy.injectField, Str(t))]) else doc
    }

    /** A document a tenant may store: an object that leaves the isolation field alone. */
    predicate Storable(doc: Json) {
      doc.Obj? && Valid(doc) && !Has(doc.fields, tenancy.injectField)
    }
  }

  // ----- when two tenants' ids can meet -----

  predicate PrefixComparable(a: string, b: string) { a <= b || b <= a }

  predicate SuffixComparable(a: string, b: string) { HasSuffix(a, b) || HasSuffix(b, a) }

  ghost predicate IdsMeet(shape: IdShape, t: string, u: string) {
    exists x, y :: shape.Physical(t, x) == shape.Physical(u, y)
  }

  lemma PrefixesCompare(a: string, x: string, b: string, y: string)
    requires a + x == b + y
    ensures PrefixComparable(a, b)
  {
    var s := a + x;
    assert s[..|a|] == a && s[..|b|] == b;
    if |a| <= |b| { assert a == b[..|a|]; } else { assert b == a[..|b|]; }
  }

  lemma SuffixesCompare(x: string, a: string, y: string, b: string)
    requires x + a == y + b
    ensures SuffixComparable(a, b)
  {
    var s := x + a;
    assert s[|s| - |a|..] == a && s[|s| - |b|..] == b;
    if |a| <= |b| { assert b[|b| - |a|..] == a; } else { assert a[|a| - |b|..] == b; }
  }

  /** The longer prefix and the longer suffix, side by side, are an id of both tenants. */
  lemma MeetingIds(pt: string, st: string, pu: string, su: string) returns (x: string, y: string)
    requires PrefixComparable(pt, pu) && SuffixComparable(st, su)
    ensures pt + x + st == pu + y + su
    decreases if pt <= pu then 0 else 1
  {
    if pt <= pu {
      var a := pu[|pt|..];
      if HasSuffix(su, st) {
        var b := su[..|su| - |st|];
        x, y := a + b, "";
        assert pt + (a + b) + st == (pt + a) + (b + st);
      } else {
        var b := st[..|st| - |su|];
        x, y := a, b;
        assert pt + a + (b + su) == (pt + a) + b + su;
      }
    } else {
      y, x := MeetingIds(pu, su, pt, st);
    }
  }

  lemma MeetingCompares(pt: string, x: string, st: string, pu: string, y: string, su: string)
    requires pt + x + st == pu + y + su
    ensures PrefixComparable(pt, pu) && SuffixComparable(st, su)
  {
    assert pt + (x + st) == pt + x + st && pu + (y + su) == pu + y + su;
    PrefixesCompare(pt, x + st, pu, y + su);
    SuffixesCompare(pt + x, st, pu + y, su);
  }

  /** Two tenants can share a physical id exactly when one's text before the body field is a
      prefix of the other's and one's text after it is a suffix of the other's. */
  lemma IdsMeetIff(shape: IdShape, t: string, u: string)
    ensures IdsMeet(shape, t, u) <==>
            PrefixComparable(shape.Prefix(t), shape.Prefix(u))
            && SuffixComparable(shape.Suffix(t), shape.Suffix(u))
  {
    var pt, pu, st, su := shape.Prefix(t), shape.Prefix(u), shape.Suffix(t), shape.Suffix(u);
    if IdsMeet(shape, t, u) {
      var x, y :| shape.Physical(t, x) == shape.Physical(u, y);
      MeetingCompares(pt, x, st, pu, y, su);
    }
    if PrefixComparable(pt, pu) && SuffixComparable(st, su) {
      var x, y := MeetingIds(pt, st, pu, su);
      assert shape.Physical(t, x) == shape.Physical(u, y);
    }
  }

  lemma DefaultTemplateText()
    ensures "{partition}:{body.id}" == "{" + ("partition" + ['}'] + ([':'] + ("{" + ("body.id" + ['}'] + ""))))
  {
  }

  lemma DefaultPlaceholders()
    ensures Placeholder("partition") == Some(Partition) && Placeholder("body.id") == Some(Body("id"))
  {
    assert "body.id"[|BODY|..] == "id";
  }

  lemma DefaultTemplateParses(t: string, field: string)
    requires field == "{" + ("body.id" + ['}'] + "") && t == "{" + ("partition" + ['}'] + ([':'] + field))
    ensures ParseTemplate(t) == Some([Partition] + ([Lit(':')] + ([Body("id")] + [])))
  {
    DefaultPlaceholders();
    ParsePlaceholder("body.id", "");
    ParseLiteral(':', field);
    ParsePlaceholder("partition", [':'] + field);
  }

  lemma ShapeCons(p: Piece, rest: seq<Piece>, shape: IdShape)
    requires !p.Body? && ShapeOf(rest) == Some(shape)
    ensures ShapeOf([p] + rest) == Some(shape.(pre := [p] + shape.pre))
  {
    assert ([p] + rest)[1..] == rest;
  }

  lemma DefaultPieces()
    ensures ShapeOf([Partition] + ([Lit(':')] + ([Body("id")] + []))) ==
            Some(IdShape([Partition, Lit(':')], "id", []))
  {
    var last := [Body("id")] + [];
    assert last[1..] == [];
    ShapeCons(Lit(':'), last, IdShape([], "id", []));
    ShapeCons(Partition, [Lit(':')] + last, IdShape([Lit(':')] + [], "id", []));
    assert [Partition] + ([Lit(':')] + []) == [Partition, Lit(':')];
  }

  lemma DefaultTemplateShape()
    ensures TemplateShape("{partition}:{body.id}") == Ok(IdShape([Partition, Lit(':')], "id", []))
  {
    var t := "{partition}:{body.id}";
    DefaultTemplateText();
    DefaultTemplateParses(t, "{" + ("body.id" + ['}'] + ""));
    DefaultPieces();
  }

  /** With the default template the condition reads: neither partition followed by the colon
      is a prefix of the other. Tenants `a` and `a:b` break it: one's document `b:1` and the
      other's document `1` are the same stored document. */
  lemma DefaultTemplateMeets(t: string, u: string)
    ensures var shape := IdShape([Partition, Lit(':')], "id", []);
            && (IdsMeet(shape, t, u) <==> PrefixComparable(t + ":", u + ":"))
            && shape.Physical("a", "b:1") == shape.Physical("a:b", "1")
  {
    var shape := IdShape([Partition, Lit(':')], "id", []);
    DefaultPrefix(t);
    DefaultPrefix(u);
    DefaultPrefix("a");
    DefaultPrefix("a:b");
    IdsMeetIff(shape, t, u);
  }

  lemma DefaultPrefix(t: string)
    ensures Fixed([Partition, Lit(':')], t) == t + ":"
  {
    assert [Partition, Lit(':')][1..] == [Lit(':')];
    assert Fixed([Lit(':')], t) == ":" + Fixed([], t);
  }

  /** The hypothesis of the isolation theorems: different tenants live on different clusters
      or their ids cannot meet. */
  ghost predicate Separated(sc: Scope, tenants: set<string>) {
    forall t, u :: t in tenants && u in tenants && t != u ==>
      sc.tenancy.ClusterFor(t) != sc.tenancy.ClusterFor(u)
      || !PrefixComparable(sc.shape.Prefix(t), sc.shape.Prefix(u))
      || !SuffixComparable(sc.shape.Suffix(t), sc.shape.Suffix(u))
  }

  lemma KeysApart(sc: Scope, tenants: set<string>, t: string, x: string, u: string, y: string)
    requires Separated(sc, tenants) && t in tenants && u in tenants
    requires sc.KeyOf(t, x) == sc.KeyOf(u, y)
    ensures t == u && x == y
  {
    if t != u {
      assert IdsMeet(sc.shape, t, u);
      IdsMeetIff(sc.shape, t, u);
    } else {
      StripPhysical(sc.shape, t, x);
      StripPhysical(sc.shape, t, y);
    }
  }

  // ----- representation -----

  ghost predicate Holds(privs: map<string, Private>, t: string, x: string) {
    t in privs && x in privs[t]
  }

  /** Every private document is in the shared store, stamped, under its tenant's key. */
  ghost predicate Contains(sc: Scope, docs: map<Key, Json>, privs: map<string, Private>) {
    forall t, x :: Holds(privs, t, x) ==>
      sc.Storable(privs[t][x]) && sc.KeyOf(t, x) in docs
      && docs[sc.KeyOf(t, x)] == sc.Stamp(t, privs[t][x])
  }

  /** Nothing else is. */
  ghost predicate Only(sc: Scope, docs: map<Key, Json>, privs: map<string, Private>) {
    forall k :: k in docs ==> exists t, x :: Holds(privs, t, x) && k == sc.KeyOf(t, x)
  }

  /** The shared store is the disjoint union of the private stores. */
  ghost predicate Represents(sc: Scope, docs: map<Key, Json>, privs: map<string, Private>) {
    Contains(sc, docs, privs) && Only(sc, docs, privs)
  }

  lemma KeyPresent(sc: Scope, docs: map<Key, Json>, privs: map<string, Private>, t: string, x: string)
    requires Represents(sc, docs, privs) && Separated(sc, privs.Keys) && t in privs
    ensures sc.KeyOf(t, x) in docs <==> x in privs[t]
    ensures x in privs[t] ==> docs[sc.KeyOf(t, x)] == sc.Stamp(t, privs[t][x]) && sc.Storable(privs[t][x])
  {
    if x in privs[t] { assert Holds(privs, t, x); }
    if sc.KeyOf(t, x) in docs {
      var u, y :| Holds(privs, u, y) && sc.KeyOf(t, x) == sc.KeyOf(u, y);
      KeysApart(sc, privs.Keys, t, x, u, y);
    }
  }

  lemma PutContains(sc: Scope, docs: map<Key, Json>, privs: map<string, Private>,
                    t: string, x: string, doc: Json)
    requires Contains(sc, docs, privs) && Separated(sc, privs.Keys) && t in privs && sc.Storable(doc)
    ensures Contains(sc, docs[sc.KeyOf(t, x) := sc.Stamp(t, doc)], privs[t := privs[t][x := doc]])
  {
    var privs' := privs[t := privs[t][x := doc]];
    forall u, y | Holds(privs', u, y) && (u != t || y != x)
      ensures Holds(privs, u, y) && privs'[u][y] == privs[u][y] && sc.KeyOf(u, y) != sc.KeyOf(t, x)
    {
      if sc.KeyOf(u, y) == sc.KeyOf(t, x) { KeysApart(sc, privs.Keys, u, y, t, x); }
    }
  }

  lemma PutOnly(sc: Scope, docs: map<Key, Json>, privs: map<string, Private>, t: string, x: string, doc: Json)
    requires Only(sc, docs, privs) && t in privs
    ensures Only(sc, docs[sc.KeyOf(t, x) := sc.Stamp(t, doc)], privs[t := privs[t][x := doc]])
  {
    var docs' := docs[sc.KeyOf(t, x) := sc.Stamp(t, doc)];
    var privs' := privs[t := privs[t][x := doc]];
    assert Holds(privs', t, x);
    forall k | k in docs' && k != sc.KeyOf(t, x)
      ensures exists u, y :: Holds(privs', u, y) && k == sc.KeyOf(u, y)
    {
      var u, y :| Holds(privs, u, y) && k == sc.KeyOf(u, y);
      assert Holds(privs', u, y);
    }
  }

  lemma DropContains(sc: Scope, docs: map<Key, Json>, privs: map<string, Private>, t: string, x: string)
    requires Contains(sc, docs, privs) && Separated(sc, privs.Keys) && t in privs
    ensures Contains(sc, docs - {sc.KeyOf(t, x)}, privs[t := privs[t] - {x}])
  {
    var privs' := privs[t := privs[t] - {x}];
    forall u, y | Holds(privs', u, y)
      ensures Holds(privs, u, y) && privs'[u][y] == privs[u][y] && sc.KeyOf(u, y) != sc.KeyOf(t, x)
    {
      if sc.KeyOf(u, y) == sc.KeyOf(t, x) { KeysApart(sc, privs.Keys, u, y, t, x); }
    }
  }

  lemma DropOnly(sc: Scope, docs: map<Key, Json>, privs: map<string, Private>, t: string, x: string)
    requires Only(sc, docs, privs) && t in privs
    ensures Only(sc, docs - {sc.KeyOf(t, x)}, privs[t := privs[t] - {x}])
  {
    var privs' := privs[t := privs[t] - {x}];
    forall k | k in docs && k != sc.KeyOf(t, x)
      ensures exists u, y :: Holds(privs', u, y) && k == sc.KeyOf(u, y)
    {
      var u, y :| Holds(privs, u, y) && k == sc.KeyOf(u, y);
      assert Holds(privs', u, y);
    }
  }

  lemma PutRepresents(sc: Scope, docs: map<Key, Json>, privs: map<string, Private>,
                      t: string, x: string, doc: Json)
    requires Represents(sc, docs, privs) && Separated(sc, privs.Keys) && t in privs && sc.Storable(doc)
    ensures Represents(sc, docs[sc.KeyOf(t, x) := sc.Stamp(t, doc)], privs[t := privs[t][x := doc]])
  {
    PutContains(sc, docs, privs, t, x, doc);
    PutOnly(sc, docs, privs, t, x, doc);
  }

  lemma DropRepresents(sc: Scope, docs: map<Key, Json>, privs: map<string, Private>, t: string, x: string)
    requires Represents(sc, docs, privs) && Separated(sc, privs.Keys) && t in privs
    ensures Represents(sc, docs - {sc.KeyOf(t, x)}, privs[t := privs[t] - {x}])
  {
    DropContains(sc, docs, privs, t, x);
    DropOnly(sc, docs, privs, t, x);
  }

  // ----- simulation -----

  function PhysicalStep(sc: Scope, t: string, step: Step<string>): Step<Key> {
    match step
    case PutStep(action, x, doc) => PutStep(action, sc.KeyOf(t, x), sc.Stamp(t, doc))
    case DropStep(x) => DropStep(sc.KeyOf(t, x))
    case KeylessStep => KeylessStep
  }

  function PhysicalSteps(sc: Scope, t: string, steps: seq<Step<string>>): (r: seq<Step<Key>>)
    ensures |r| == |steps| && forall i :: 0 <= i < |steps| ==> r[i] == PhysicalStep(sc, t, steps[i])
  {
    if steps == [] then [] else [PhysicalStep(sc, t, steps[0])] + PhysicalSteps(sc, t, steps[1..])
  }

  function KeysOf(sc: Scope, t: string, xs: seq<string>): (r: seq<Key>)
    ensures |r| == |xs| && forall i :: 0 <= i < |xs| ==> r[i] == sc.KeyOf(t, xs[i])
  {
    if xs == [] then [] else [sc.KeyOf(t, xs[0])] + KeysOf(sc, t, xs[1..])
  }

  /** A tenant's operation, addressed to the shared index. */
  function PhysicalOp(sc: Scope, t: string, op: Op<string>): Op<Key> {
    match op
    case Write(x, doc) => Write(sc.KeyOf(t, x), sc.Stamp(t, doc))
    case Erase(x) => Erase(sc.KeyOf(t, x))
    case Fetch(x) => Fetch(sc.KeyOf(t, x))
    case FetchMany(xs) => FetchMany(KeysOf(sc, t, xs))
    case Batch(steps) => Batch(PhysicalSteps(sc, t, steps))
  }

  function StampOption(sc: Scope, t: string, doc: Option<Json>): Option<Json> {
    if doc.None? then None else Some(sc.Stamp(t, doc.value))
  }

  function PhysicalDocs(sc: Scope, t: string, docs: seq<(string, Option<Json>)>)
    : (r: seq<(Key, Option<Json>)>)
    ensures |r| == |docs|
    ensures forall i :: 0 <= i < |docs| ==> r[i] == (sc.KeyOf(t, docs[i].0), StampOption(sc, t, docs[i].1))
  {
    if docs == [] then []
    else [(sc.KeyOf(t, docs[0].0), StampOption(sc, t, docs[0].1))] + PhysicalDocs(sc, t, docs[1..])
  }

  function PhysicalOutcome(sc: Scope, t: string, o: Outcome<string>): Outcome<Key> {
    match o
    case Acted(action, x, status) => Acted(action, sc.KeyOf(t, x), status)
    case Keyless => Keyless
  }

  function PhysicalOutcomes(sc: Scope, t: string, os: seq<Outcome<string>>): (r: seq<Outcome<Key>>)
    ensures |r| == |os| && forall i :: 0 <= i < |os| ==> r[i] == PhysicalOutcome(sc, t, os[i])
  {
    if os == [] then [] else [PhysicalOutcome(sc, t, os[0])] + PhysicalOutcomes(sc, t, os[1..])
  }

  /** A tenant's answer, as the shared index gives it. */
  function PhysicalAnswer(sc: Scope, t: string, a: Answer<string>): Answer<Key> {
    match a
    case Written(x, created) => Written(sc.KeyOf(t, x), created)
    case Erased(x, found) => Erased(sc.KeyOf(t, x), found)
    case Fetched(x, doc) => Fetched(sc.KeyOf(t, x), StampOption(sc, t, doc))
    case FetchedMany(docs) => FetchedMany(PhysicalDocs(sc, t, docs))
    case BatchDone(os) => BatchDone(PhysicalOutcomes(sc, t, os))
  }

  predicate StorableStep(sc: Scope, step: Step<string>) {
    step.PutStep? ==> sc.Storable(step.doc)
  }

  predicate StorableOp(sc: Scope, op: Op<string>) {
    match op
    case Write(_, doc) => sc.Storable(doc)
    case Batch(steps) => forall i :: 0 <= i < |steps| ==> StorableStep(sc, steps[i])
    case _ => true
  }

  lemma StepSimulates(sc: Scope, docs: map<Key, Json>, privs: map<string, Private>,
                      t: string, step: Step<string>)
    requires Represents(sc, docs, privs) && Separated(sc, privs.Keys) && t in privs
    requires StorableStep(sc, step)
    ensures var shared, own := RunStep(docs, PhysicalStep(sc, t, step)), RunStep(privs[t], step);
            Represents(sc, shared.0, privs[t := own.0]) && shared.1 == PhysicalOutcome(sc, t, own.1)
  {
    assert privs[t := privs[t]] == privs;
    match step
    case PutStep(action, x, doc) =>
      KeyPresent(sc, docs, privs, t, x);
      PutRepresents(sc, docs, privs, t, x, doc);
    case DropStep(x) =>
      KeyPresent(sc, docs, privs, t, x);
      DropRepresents(sc, docs, privs, t, x);
    case KeylessStep =>
  }

  /** Running the steps is running the first and then the rest, on both sides. */
  lemma StepsUnfold(sc: Scope, docs: map<Key, Json>, privs: map<string, Private>,
                    t: string, steps: seq<Step<string>>)
    requires t in privs && steps != []
    ensures var first, own := RunStep(docs, PhysicalStep(sc, t, steps[0])), RunStep(privs[t], steps[0]);
            var more, mine := RunSteps(first.0, PhysicalSteps(sc, t, steps[1..])), RunSteps(own.0, steps[1..]);
            && RunSteps(docs, PhysicalSteps(sc, t, steps)) == (more.0, [first.1] + more.1)
            && RunSteps(privs[t], steps) == (mine.0, [own.1] + mine.1)
            && privs[t := own.0][t := mine.0] == privs[t := mine.0]
            && privs[t := own.0].Keys == privs.Keys
            && PhysicalOutcomes(sc, t, [own.1] + mine.1)
               == [PhysicalOutcome(sc, t, own.1)] + PhysicalOutcomes(sc, t, mine.1)
  {
    assert PhysicalSteps(sc, t, steps)[1..] == PhysicalSteps(sc, t, steps[1..]);
    OutcomesCons(sc, t, RunStep(privs[t], steps[0]).1,
                 RunSteps(RunStep(privs[t], steps[0]).0, steps[1..]).1);
  }

  ghost predicate StepsSim(sc: Scope, docs: map<Key, Json>, privs: map<string, Private>,
                           t: string, steps: seq<Step<string>>)
    requires t in privs
  {
    var shared, own := RunSteps(docs, PhysicalSteps(sc, t, steps)), RunSteps(privs[t], steps);
    Represents(sc, shared.0, privs[t := own.0]) && shared.1 == PhysicalOutcomes(sc, t, own.1)
  }

  lemma {:induction false} StepsSimulate(sc: Scope, docs: map<Key, Json>, privs: map<string, Private>,
                                         t: string, steps: seq<Step<string>>)
    requires Represents(sc, docs, privs) && Separated(sc, privs.Keys) && t in privs
    requires forall i :: 0 <= i < |steps| ==> StorableStep(sc, steps[i])
    ensures StepsSim(sc, docs, privs, t, steps)
    decreases steps
  {
    if steps == [] {
      assert privs[t := privs[t]] == privs;
    } else {
      StepSimulates(sc, docs, privs, t, steps[0]);
      StepsUnfold(sc, docs, privs, t, steps);
      var shared, own := RunStep(docs, PhysicalStep(sc, t, steps[0])), RunStep(privs[t], steps[0]);
      StepsSimulate(sc, shared.0, privs[t := own.0], t, steps[1..]);
    }
  }

  lemma OutcomesCons(sc: Scope, t: string, o: Outcome<string>, os: seq<Outcome<string>>)
    ensures PhysicalOutcomes(sc, t, [o] + os) == [PhysicalOutcome(sc, t, o)] + PhysicalOutcomes(sc, t, os)
  {
    assert ([o] + os)[1..] == os;
  }

  lemma {:induction false} LookupAllPhysical(sc: Scope, docs: map<Key, Json>, privs: map<string, Private>,
                                             t: string, xs: seq<string>)
    requires Represents(sc, docs, privs) && Separated(sc, privs.Keys) && t in privs
    ensures LookupAll(docs, KeysOf(sc, t, xs)) == PhysicalDocs(sc, t, LookupAll(privs[t], xs))
  {
    if xs != [] {
      KeyPresent(sc, docs, privs, t, xs[0]);
      LookupAllPhysical(sc, docs, privs, t, xs[1..]);
      assert KeysOf(sc, t, xs)[1..] == KeysOf(sc, t, xs[1..]);
      assert LookupAll(privs[t], xs)[1..] == LookupAll(privs[t], xs[1..]);
    }
  }

  lemma FetchSimulates(sc: Scope, docs: map<Key, Json>, privs: map<string, Private>, t: string, x: string)
    requires Represents(sc, docs, privs) && Separated(sc, privs.Keys) && t in privs
    ensures Simulates(sc, docs, privs, t, Fetch(x))
  {
    KeyPresent(sc, docs, privs, t, x);
    ReadSimulates(sc, docs, privs, t, Fetch(x));
  }

  lemma FetchManySimulates(sc: Scope, docs: map<Key, Json>, privs: map<string, Private>, t: string, xs: seq<string>)
    requires Represents(sc, docs, privs) && Separated(sc, privs.Keys) && t in privs
    ensures Simulates(sc, docs, privs, t, FetchMany(xs))
  {
    LookupAllPhysical(sc, docs, privs, t, xs);
    ReadSimulates(sc, docs, privs, t, FetchMany(xs));
  }

  /** What changes neither store and answers alike. */
  lemma ReadSimulates(sc: Scope, docs: map<Key, Json>, privs: map<string, Private>, t: string, op: Op<string>)
    requires Represents(sc, docs, privs) && t in privs
    requires Exec(docs, PhysicalOp(sc, t, op)).0 == docs && Exec(privs[t], op).0 == privs[t]
    requires Exec(docs, PhysicalOp(sc, t, op)).1 == PhysicalAnswer(sc, t, Exec(privs[t], op).1)
    ensures Simulates(sc, docs, privs, t, op)
  {
    assert privs[t := privs[t]] == privs;
  }

  lemma WriteSimulates(sc: Scope, docs: map<Key, Json>, privs: map<string, Private>,
                       t: string, x: string, doc: Json)
    requires Represents(sc, docs, privs) && Separated(sc, privs.Keys) && t in privs && sc.Storable(doc)
    ensures Simulates(sc, docs, privs, t, Write(x, doc))
  {
    KeyPresent(sc, docs, privs, t, x);
    PutRepresents(sc, docs, privs, t, x, doc);
  }

  lemma EraseSimulates(sc: Scope, docs: map<Key, Json>, privs: map<string, Private>, t: string, x: string)
    requires Represents(sc, docs, privs) && Separated(sc, privs.Keys) && t in privs
    ensures Simulates(sc, docs, privs, t, Erase(x))
  {
    KeyPresent(sc, docs, privs, t, x);
    DropRepresents(sc, docs, privs, t, x);
  }

  /** The shared store follows the tenant's private store, no other tenant's store changes,
      and the shared answer is the private one in physical terms. */
  ghost predicate Simulates(sc: Scope, docs: map<Key, Json>, privs: map<string, Private>,
                            t: string, op: Op<string>)
    requires t in privs
  {
    var shared, own := Exec(docs, PhysicalOp(sc, t, op)), Exec(privs[t], op);
    Represents(sc, shared.0, privs[t := own.0]) && shared.1 == PhysicalAnswer(sc, t, own.1)
  }

  /** One operation of one tenant. */
  lemma OpSimulates(sc: Scope, docs: map<Key, Json>, privs: map<string, Private>, t: string, op: Op<string>)
    requires Represents(sc, docs, privs) && Separated(sc, privs.Keys) && t in privs && StorableOp(sc, op)
    ensures Simulates(sc, docs, privs, t, op)
  {
    match op
    case Write(x, doc) => WriteSimulates(sc, docs, privs, t, x, doc);
    case Erase(x) => EraseSimulates(sc, docs, privs, t, x);
    case Fetch(x) => FetchSimulates(sc, docs, privs, t, x);
    case FetchMany(xs) => FetchManySimulates(sc, docs, privs, t, xs);
    case Batch(steps) => BatchSimulates(sc, docs, privs, t, steps);
  }

  lemma BatchSimulates(sc: Scope, docs: map<Key, Json>, privs: map<string, Private>,
                       t: string, steps: seq<Step<string>>)
    requires Represents(sc, docs, privs) && Separated(sc, privs.Keys) && t in privs
    requires StorableOp(sc, Batch(steps))
    ensures Simulates(sc, docs, privs, t, Batch(steps))
  {
    StepsSimulate(sc, docs, privs, t, steps);
  }
}
