/** When the tenants of one shared index are isolated at all: exactly when their ids cannot
    meet. The requests that show the leak otherwise are written out. */
module Isolation {
  import opened Common
  import opened Json
  import opened Rewrite
  import opened Ndjson
  import opened Adapter
  import opened Transform
  import opened Route
  import opened Reference
  import opened Shared
  import opened Wire
  import opened Replies
  import opened Runs
  import Engine

  /** Requests can come from this tenant: a header can say any name, a principal none but the
      empty one. */
  predicate Addressable(sc: Scope, t: string) {
    sc.tenancy.fromPrincipal ==> t != ""
  }

  function CallerHeaders(sc: Scope, t: string): Headers {
    if sc.tenancy.fromPrincipal then [] else [(sc.tenancy.partitionHeader, t)]
  }

  function CallerPrincipal(sc: Scope, t: string): string {
    if sc.tenancy.fromPrincipal then t else ANONYMOUS
  }

  /** The smallest document of this id. */
  function DocOf(sc: Scope, x: string): Json {
    Obj([(sc.shape.field, Str(x))])
  }

  function PutOf(sc: Scope, t: string, x: string): Ctx {
    Ctx(PUT, IngestDoc, "notes", Some(x), CallerHeaders(sc, t), CallerPrincipal(sc, t), Print(DocOf(sc, x)))
  }

  function GetOf(sc: Scope, t: string, x: string): Ctx {
    Ctx(GET, GetById, "notes", Some(x), CallerHeaders(sc, t), CallerPrincipal(sc, t), "")
  }

  lemma CallerResolves(sc: Scope, t: string, x: string)
    requires Addressable(sc, t)
    ensures sc.tenancy.ResolvePartition(PutOf(sc, t, x)) == Ok(t)
    ensures sc.tenancy.ResolvePartition(GetOf(sc, t, x)) == Ok(t)
  {
  }

  lemma PutStores(sc: Scope, x: string)
    requires sc.shape.field != sc.tenancy.injectField
    ensures Storing(sc, Print(DocOf(sc, x))) == Some((x, DocOf(sc, x)))
  {
    OneField((sc.shape.field, Str(x)));
    ParsePrint(DocOf(sc, x));
  }

  lemma WitnessesFit(sc: Scope, t: string, x: string, u: string, y: string)
    requires Addressable(sc, t) && Addressable(sc, u) && sc.tenancy.AdmitWrite(t)
    requires sc.shape.field != sc.tenancy.injectField
    ensures PutsAs(sc, t, x, PutOf(sc, t, x)) && GetsAs(sc, u, y, GetOf(sc, u, y))
    ensures LogicalOp(sc, t, PutOf(sc, t, x)) == Ok(Engine.Write(x, DocOf(sc, x)))
  {
    CallerResolves(sc, t, x);
    CallerResolves(sc, u, y);
    PutStores(sc, x);
  }

  lemma TwoSteps(router: Router, docs: Docs, a: Ctx, b: Ctx)
    ensures SharedRun(router, docs, [a, b]).1 ==
            [SharedStep(router, docs, a).1, SharedStep(router, SharedStep(router, docs, a).0, b).1]
  {
    assert [a, b][1..] == [b] && [b][1..] == [];
    var first := SharedStep(router, docs, a);
    assert SharedRun(router, first.0, [b]).1 == [SharedStep(router, first.0, b).1] + [];
  }

  lemma TwoOwnSteps(sc: Scope, privs: Privates, a: Ctx, b: Ctx)
    ensures PrivateRun(sc, privs, [a, b]).1 ==
            [PrivateStep(sc, privs, a).1, PrivateStep(sc, PrivateStep(sc, privs, a).0, b).1]
  {
    assert [a, b][1..] == [b] && [b][1..] == [];
    var first := PrivateStep(sc, privs, a);
    assert PrivateRun(sc, first.0, [b]).1 == [PrivateStep(sc, first.0, b).1] + [];
  }

  ghost predicate CoveredRun(sc: Scope, tenants: set<string>, run: seq<Ctx>) {
    forall i :: 0 <= i < |run| ==> From(sc, tenants, run[i])
  }

  /** Over this run every client of the shared index sees what its own store would show. */
  predicate SeenAlike(sc: Scope, tenants: set<string>, run: seq<Ctx>) {
    SharedRun(sc.tenancy.AsRouter(), map[], run).1 == PrivateRun(sc, Fresh(tenants), run).1
  }

  lemma ReadsLeak(sc: Scope, tenants: set<string>, t: string, x: string, u: string, y: string)
    requires sc.Sound() && sc.shape.Physical(t, x) != "" && t in tenants && u in tenants && t != u
    requires Addressable(sc, t) && Addressable(sc, u) && sc.tenancy.AdmitWrite(t)
    requires sc.shape.field != sc.tenancy.injectField && sc.KeyOf(t, x) == sc.KeyOf(u, y)
    ensures SharedRead(sc, PutOf(sc, t, x), GetOf(sc, u, y)) == Shown(Found("notes", y, Some(DocOf(sc, x))))
    ensures OwnRead(sc, tenants, PutOf(sc, t, x), GetOf(sc, u, y)) == Shown(Found("notes", y, None))
    ensures SharedRead(sc, PutOf(sc, t, x), GetOf(sc, u, y)) != OwnRead(sc, tenants, PutOf(sc, t, x), GetOf(sc, u, y))
  {
    WitnessesFit(sc, t, x, u, y);
    SeparationNeeded(sc, tenants, t, x, u, y, PutOf(sc, t, x), GetOf(sc, u, y));
  }

  lemma RunOfTwo(sc: Scope, tenants: set<string>, put: Ctx, get: Ctx)
    requires From(sc, tenants, put) && From(sc, tenants, get)
    requires SharedRead(sc, put, get) != OwnRead(sc, tenants, put, get)
    ensures CoveredRun(sc, tenants, [put, get]) && !SeenAlike(sc, tenants, [put, get])
  {
    TwoSteps(sc.tenancy.AsRouter(), map[], put, get);
    TwoOwnSteps(sc, Fresh(tenants), put, get);
    assert SharedRun(sc.tenancy.AsRouter(), map[], [put, get]).1[1] == SharedRead(sc, put, get);
    assert PrivateRun(sc, Fresh(tenants), [put, get]).1[1] == OwnRead(sc, tenants, put, get);
  }

  lemma PutIsCovered(sc: Scope, tenants: set<string>, t: string, x: string)
    requires Addressable(sc, t) && t in tenants && sc.shape.Physical(t, x) != ""
    requires sc.tenancy.AdmitWrite(t) && sc.shape.field != sc.tenancy.injectField
    ensures From(sc, tenants, PutOf(sc, t, x))
  {
    WitnessesFit(sc, t, x, t, x);
  }

  lemma GetIsCovered(sc: Scope, tenants: set<string>, t: string, x: string)
    requires Addressable(sc, t) && t in tenants && sc.shape.Physical(t, x) != ""
    ensures From(sc, tenants, GetOf(sc, t, x))
  {
    CallerResolves(sc, t, x);
    assert LogicalOp(sc, t, GetOf(sc, t, x)) == Ok(Engine.Fetch(x));
  }

  /** Two tenants of one cluster whose ids meet: the second reads, at its own id, what the first
      wrote at its own, where its own store has nothing. */
  lemma MeetingIdsLeak(sc: Scope, tenants: set<string>, t: string, x: string, u: string, y: string)
    requires sc.Sound() && sc.shape.Physical(t, x) != "" && t in tenants && u in tenants && t != u
    requires Addressable(sc, t) && Addressable(sc, u) && sc.tenancy.AdmitWrite(t)
    requires sc.shape.field != sc.tenancy.injectField && sc.KeyOf(t, x) == sc.KeyOf(u, y)
    ensures var run := [PutOf(sc, t, x), GetOf(sc, u, y)];
            && CoveredRun(sc, tenants, run) && !SeenAlike(sc, tenants, run)
            && SharedRead(sc, run[0], run[1]) == Shown(Found("notes", y, Some(DocOf(sc, x))))
            && OwnRead(sc, tenants, run[0], run[1]) == Shown(Found("notes", y, None))
  {
    PutIsCovered(sc, tenants, t, x);
    GetIsCovered(sc, tenants, u, y);
    ReadsLeak(sc, tenants, t, x, u, y);
    RunOfTwo(sc, tenants, PutOf(sc, t, x), GetOf(sc, u, y));
  }

  /** At most one partition is migrating, so one of two tenants can write. */
  lemma OneCanWrite(sc: Scope, t: string, u: string)
    requires t != u
    ensures sc.tenancy.AdmitWrite(t) || sc.tenancy.AdmitWrite(u)
  {
  }

  /** Ids that meet, meet at a non-empty id. */
  lemma NonEmptyMeeting(sc: Scope, t: string, u: string) returns (x: string, y: string)
    requires IdsMeet(sc.shape, t, u)
    ensures sc.shape.Physical(t, x) == sc.shape.Physical(u, y) != ""
  {
    x, y :| sc.shape.Physical(t, x) == sc.shape.Physical(u, y);
    if sc.shape.Physical(t, x) == "" {
      assert sc.shape.Prefix(t) == "" && sc.shape.Suffix(t) == "" by { EmptyParts(sc.shape.Prefix(t), x, sc.shape.Suffix(t)); }
      assert sc.shape.Prefix(u) == "" && sc.shape.Suffix(u) == "" by { EmptyParts(sc.shape.Prefix(u), y, sc.shape.Suffix(u)); }
      x, y := "a", "a";
    }
  }

  lemma EmptyParts(a: string, b: string, c: string)
    requires a + b + c == ""
    ensures a == "" && b == "" && c == ""
  {
    assert |a + b + c| == |a| + |b| + |c|;
  }

  lemma UnseparatedLeaks(sc: Scope, tenants: set<string>, t: string, u: string) returns (run: seq<Ctx>)
    requires sc.Sound() && t in tenants && u in tenants && t != u
    requires Addressable(sc, t) && Addressable(sc, u)
    requires sc.shape.field != sc.tenancy.injectField && sc.tenancy.ClusterFor(t) == sc.tenancy.ClusterFor(u)
    requires IdsMeet(sc.shape, t, u)
    ensures CoveredRun(sc, tenants, run) && !SeenAlike(sc, tenants, run)
  {
    var x, y := NonEmptyMeeting(sc, t, u);
    OneCanWrite(sc, t, u);
    if sc.tenancy.AdmitWrite(t) {
      MeetingIdsLeak(sc, tenants, t, x, u, y);
      run := [PutOf(sc, t, x), GetOf(sc, u, y)];
    } else {
      MeetingIdsLeak(sc, tenants, u, y, t, x);
      run := [PutOf(sc, u, y), GetOf(sc, t, x)];
    }
  }

  // ----- when nothing can be stored -----

  /** When the id is to be read from the isolation field itself, no body can be stored. */
  lemma NothingStored(sc: Scope, body: string)
    requires sc.shape.field == sc.tenancy.injectField
    ensures Storing(sc, body).None?
  {
  }

  predicate PutFree(steps: seq<Engine.Step<string>>) {
    forall i :: 0 <= i < |steps| ==> !steps[i].PutStep?
  }

  lemma {:induction false} NoPuts(sc: Scope, items: seq<BulkItem>)
    requires sc.shape.field == sc.tenancy.injectField && LogicalSteps(sc, items).Some?
    ensures PutFree(LogicalSteps(sc, items).value)
  {
    if items != [] {
      if items[0].source.Some? { NothingStored(sc, items[0].source.value); }
      NoPuts(sc, items[1..]);
    }
  }

  lemma {:induction false} EmptyStays(steps: seq<Engine.Step<string>>)
    requires PutFree(steps)
    ensures Engine.RunSteps(map[], steps).0 == map[]
  {
    if steps != [] {
      assert !steps[0].PutStep?;
      assert Engine.RunStep(map[], steps[0]).0 == map[];
      EmptyStays(steps[1..]);
    }
  }

  lemma OwnStaysEmpty(sc: Scope, t: string, ctx: Ctx)
    requires sc.shape.field == sc.tenancy.injectField && LogicalOp(sc, t, ctx).Ok?
    ensures Engine.Exec(map[], LogicalOp(sc, t, ctx).value).0 == map[]
  {
    match ctx.endpoint
    case IngestDoc => NothingStored(sc, ctx.body);
    case IngestBulk =>
      var items := ParseBulk(ctx.body).value;
      NoPuts(sc, items);
      EmptyStays(LogicalSteps(sc, items).value);
    case _ =>
  }

  predicate AllEmpty(privs: Privates) {
    forall t :: t in privs ==> privs[t] == map[]
  }

  /** One tenant by itself is always separated, and its store stays empty. */
  lemma EmptyAlone(sc: Scope, t: string, ctx: Ctx)
    requires sc.Sound() && Addressed(sc, t, ctx) && Covered(ctx) && sc.tenancy.ResolvePartition(ctx) == Ok(t)
    requires sc.shape.field == sc.tenancy.injectField
    ensures var shared, own := SharedStep(sc.tenancy.AsRouter(), map[], ctx), PrivateStep(sc, map[t := map[]], ctx);
            shared.0 == map[] && own.0 == map[t := map[]] && shared.1 == own.1
  {
    var alone: Privates := map[t := map[]];
    assert Represents(sc, map[], alone);
    StepRefines(sc, map[], alone, ctx);
    if LogicalOp(sc, t, ctx).Ok? { OwnStaysEmpty(sc, t, ctx); }
    assert PrivateStep(sc, alone, ctx).0 == alone;
    EmptyRepresents(sc, SharedStep(sc.tenancy.AsRouter(), map[], ctx).0, alone);
  }

  lemma EmptyOwn(sc: Scope, privs: Privates, t: string, ctx: Ctx)
    requires AllEmpty(privs) && t in privs && sc.tenancy.ResolvePartition(ctx) == Ok(t)
    requires sc.shape.field == sc.tenancy.injectField
    ensures var own := PrivateStep(sc, privs, ctx);
            AllEmpty(own.0) && own.0.Keys == privs.Keys && own.1 == PrivateStep(sc, map[t := map[]], ctx).1
  {
    OwnStoreDecides(sc, privs, map[t := map[]], t, ctx);
    if LogicalOp(sc, t, ctx).Ok? { OwnStaysEmpty(sc, t, ctx); }
  }

  lemma EmptyStep(sc: Scope, privs: Privates, ctx: Ctx)
    requires sc.Sound() && AllEmpty(privs) && From(sc, privs.Keys, ctx)
    requires sc.shape.field == sc.tenancy.injectField
    ensures var shared, own := SharedStep(sc.tenancy.AsRouter(), map[], ctx), PrivateStep(sc, privs, ctx);
            shared.0 == map[] && AllEmpty(own.0) && own.0.Keys == privs.Keys && shared.1 == own.1
  {
    if sc.tenancy.ResolvePartition(ctx).Ok? {
      var t := sc.tenancy.ResolvePartition(ctx).value;
      EmptyAlone(sc, t, ctx);
      EmptyOwn(sc, privs, t, ctx);
    }
  }

  lemma EmptyRepresents(sc: Scope, docs: Docs, privs: Privates)
    requires Represents(sc, docs, privs) && AllEmpty(privs)
    ensures docs == map[]
  {
    assert forall t, x :: !Holds(privs, t, x);
    assert forall k :: k !in docs;
  }

  lemma {:induction false} EmptyRun(sc: Scope, privs: Privates, run: seq<Ctx>)
    requires sc.Sound() && AllEmpty(privs)
    requires sc.shape.field == sc.tenancy.injectField && CoveredRun(sc, privs.Keys, run)
    ensures SharedRun(sc.tenancy.AsRouter(), map[], run).1 == PrivateRun(sc, privs, run).1
    decreases run
  {
    if run != [] {
      assert From(sc, privs.Keys, run[0]);
      EmptyStep(sc, privs, run[0]);
      EmptyRun(sc, PrivateStep(sc, privs, run[0]).0, run[1..]);
    }
  }

  // ----- the exact condition -----

  ghost predicate Isolated(sc: Scope, tenants: set<string>) {
    forall run :: CoveredRun(sc, tenants, run) ==> SeenAlike(sc, tenants, run)
  }

  lemma NotSeparated(sc: Scope, tenants: set<string>)
    requires sc.Sound() && (forall t :: t in tenants ==> Addressable(sc, t))
    requires !Separated(sc, tenants) && sc.shape.field != sc.tenancy.injectField
    ensures !Isolated(sc, tenants)
  {
    var t, u :| t in tenants && u in tenants && t != u
                && sc.tenancy.ClusterFor(t) == sc.tenancy.ClusterFor(u)
                && PrefixComparable(sc.shape.Prefix(t), sc.shape.Prefix(u))
                && SuffixComparable(sc.shape.Suffix(t), sc.shape.Suffix(u));
    IdsMeetIff(sc.shape, t, u);
    var run := UnseparatedLeaks(sc, tenants, t, u);
    assert CoveredRun(sc, tenants, run) && !SeenAlike(sc, tenants, run);
  }

  /** Over all runs from an empty index, every client sees what its own store would show, if and
      only if no two tenants of one cluster can share an id, or nothing can be stored at all. */
  lemma IsolatedIff(sc: Scope, tenants: set<string>)
    requires sc.Sound() && forall t :: t in tenants ==> Addressable(sc, t)
    ensures Isolated(sc, tenants) <==> Separated(sc, tenants) || sc.shape.field == sc.tenancy.injectField
  {
    if Separated(sc, tenants) {
      forall run | CoveredRun(sc, tenants, run) ensures SeenAlike(sc, tenants, run) {
        IsolationFromEmpty(sc, tenants, run);
      }
    } else if sc.shape.field == sc.tenancy.injectField {
      forall run | CoveredRun(sc, tenants, run) ensures SeenAlike(sc, tenants, run) {
        EmptyRun(sc, Fresh(tenants), run);
      }
    } else {
      NotSeparated(sc, tenants);
    }
  }

  /** The default template over tenants `a` and `a:b` on one cluster. */
  predicate ColonTenants(sc: Scope) {
    && sc.Sound() && sc.shape == IdShape([Partition, Lit(':')], "id", []) && sc.tenancy.injectField != "id"
    && sc.tenancy.ClusterFor("a") == sc.tenancy.ClusterFor("a:b") && sc.tenancy.AdmitWrite("a")
  }

  lemma ColonFacts(sc: Scope)
    requires ColonTenants(sc)
    ensures "a" != "a:b" && sc.shape.Physical("a", "b:1") != "" && sc.KeyOf("a", "b:1") == sc.KeyOf("a:b", "1")
  {
    DefaultTemplateMeets("a", "a:b");
    assert |"a"| != |"a:b"|;
    DefaultPrefix("a");
    assert |sc.shape.Physical("a", "b:1")| >= 3;
  }

  /** What `a` stores as `b:1` is what `a:b` reads as its own `1`. */
  lemma ColonTenantsLeak(sc: Scope)
    requires ColonTenants(sc)
    ensures SharedRead(sc, PutOf(sc, "a", "b:1"), GetOf(sc, "a:b", "1"))
            == Shown(Found("notes", "1", Some(DocOf(sc, "b:1"))))
    ensures OwnRead(sc, {"a", "a:b"}, PutOf(sc, "a", "b:1"), GetOf(sc, "a:b", "1")) == Shown(Found("notes", "1", None))
    ensures !Isolated(sc, {"a", "a:b"})
  {
    ColonFacts(sc);
    MeetingIdsLeak(sc, {"a", "a:b"}, "a", "b:1", "a:b", "1");
    LeakSeen(sc, {"a", "a:b"}, [PutOf(sc, "a", "b:1"), GetOf(sc, "a:b", "1")]);
  }

  lemma LeakSeen(sc: Scope, tenants: set<string>, run: seq<Ctx>)
    requires CoveredRun(sc, tenants, run) && !SeenAlike(sc, tenants, run)
    ensures !Isolated(sc, tenants)
  {
  }
}
