/** The two sides of a store: the documents of one place, an index or a cluster, and all others. In
    shared mode tenants live in the shared index and bypassed requests are meant for the rest; in
    the dedicated modes every tenant has a place of its own. */
module Sides {
  import opened Common
  import opened Json
  import opened Ndjson
  import opened Engine
  import opened Shared
  import opened Runs

  datatype Place = OfIndex(name: string) | OfCluster(name: string)

  predicate On(place: Place, k: Key) {
    match place
    case OfIndex(name) => k.index == name
    case OfCluster(name) => k.cluster == name
  }

  /** The documents on one side: those of the place, or all others. */
  function Side(place: Place, inside: bool, docs: Docs): Docs {
    map k | k in docs && (On(place, k) <==> inside) :: docs[k]
  }

  predicate KeyOn(place: Place, inside: bool, k: Key) {
    On(place, k) <==> inside
  }

  predicate StepOn(place: Place, inside: bool, step: Step<Key>) {
    step.KeylessStep? || KeyOn(place, inside, step.key)
  }

  /** Every key the operation touches is on this side. */
  predicate KeysOn(place: Place, inside: bool, op: Op<Key>) {
    match op
    case Write(k, _) => KeyOn(place, inside, k)
    case Erase(k) => KeyOn(place, inside, k)
    case Fetch(k) => KeyOn(place, inside, k)
    case FetchMany(ks) => forall i :: 0 <= i < |ks| ==> KeyOn(place, inside, ks[i])
    case Batch(steps) => forall i :: 0 <= i < |steps| ==> StepOn(place, inside, steps[i])
  }

  lemma PutLocal(place: Place, inside: bool, docs: Docs, k: Key, doc: Json)
    requires KeyOn(place, inside, k)
    ensures Side(place, inside, docs[k := doc]) == Side(place, inside, docs)[k := doc]
    ensures Side(place, !inside, docs[k := doc]) == Side(place, !inside, docs)
  {
  }

  lemma DropLocal(place: Place, inside: bool, docs: Docs, k: Key)
    requires KeyOn(place, inside, k)
    ensures Side(place, inside, docs - {k}) == Side(place, inside, docs) - {k}
    ensures Side(place, !inside, docs - {k}) == Side(place, !inside, docs)
  {
  }

  lemma KeyLocal(place: Place, inside: bool, docs: Docs, k: Key)
    requires KeyOn(place, inside, k)
    ensures Lookup(Side(place, inside, docs), k) == Lookup(docs, k)
    ensures k in Side(place, inside, docs) <==> k in docs
  {
  }

  lemma StepLocal(place: Place, inside: bool, docs: Docs, step: Step<Key>)
    requires StepOn(place, inside, step)
    ensures var all, part := RunStep(docs, step), RunStep(Side(place, inside, docs), step);
            && all.1 == part.1 && Side(place, inside, all.0) == part.0
            && Side(place, !inside, all.0) == Side(place, !inside, docs)
  {
    match step
    case PutStep(action, k, doc) =>
      PutLocal(place, inside, docs, k, doc);
      KeyLocal(place, inside, docs, k);
    case DropStep(k) =>
      DropLocal(place, inside, docs, k);
      KeyLocal(place, inside, docs, k);
    case KeylessStep =>
  }

  lemma {:induction false} StepsLocal(place: Place, inside: bool, docs: Docs, steps: seq<Step<Key>>)
    requires forall i :: 0 <= i < |steps| ==> StepOn(place, inside, steps[i])
    ensures var all, part := RunSteps(docs, steps), RunSteps(Side(place, inside, docs), steps);
            && all.1 == part.1 && Side(place, inside, all.0) == part.0
            && Side(place, !inside, all.0) == Side(place, !inside, docs)
    decreases steps
  {
    if steps != [] {
      StepLocal(place, inside, docs, steps[0]);
      StepsLocal(place, inside, RunStep(docs, steps[0]).0, steps[1..]);
    }
  }

  lemma {:induction false} LookupsLocal(place: Place, inside: bool, docs: Docs, ks: seq<Key>)
    requires forall i :: 0 <= i < |ks| ==> KeyOn(place, inside, ks[i])
    ensures LookupAll(docs, ks) == LookupAll(Side(place, inside, docs), ks)
  {
    if ks != [] {
      KeyLocal(place, inside, docs, ks[0]);
      LookupsLocal(place, inside, docs, ks[1..]);
    }
  }

  /** The operation lives on one side: it is answered from that side, changes it as it would
      alone, and leaves the other as it was. */
  ghost predicate Lives(place: Place, inside: bool, docs: Docs, op: Op<Key>) {
    var all, part := Exec(docs, op), Exec(Side(place, inside, docs), op);
    && all.1 == part.1 && Side(place, inside, all.0) == part.0
    && Side(place, !inside, all.0) == Side(place, !inside, docs)
  }

  lemma ExecLocal(place: Place, inside: bool, docs: Docs, op: Op<Key>)
    requires KeysOn(place, inside, op)
    ensures Lives(place, inside, docs, op)
  {
    match op
    case Write(k, doc) =>
      PutLocal(place, inside, docs, k, doc);
      KeyLocal(place, inside, docs, k);
    case Erase(k) =>
      DropLocal(place, inside, docs, k);
      KeyLocal(place, inside, docs, k);
    case Fetch(k) => KeyLocal(place, inside, docs, k);
    case FetchMany(ks) => LookupsLocal(place, inside, docs, ks);
    case Batch(steps) => StepsLocal(place, inside, docs, steps);
  }

  // ----- and only those -----

  /** A document at `k` alone. */
  function Only1(k: Key): Docs {
    map[k := Null]
  }

  /** A step on a key of the other side is answered differently with and without a document
      there. */
  lemma StepSees(docs: Docs, step: Step<Key>)
    requires !step.KeylessStep? && step.key !in docs
    ensures RunStep(docs, step).1 != RunStep(docs[step.key := Null], step).1
  {
  }

  lemma {:induction false} StepsSee(place: Place, inside: bool, docs: Docs, steps: seq<Step<Key>>) returns (k: Key)
    requires exists i :: 0 <= i < |steps| && !StepOn(place, inside, steps[i])
    requires forall k :: k in docs ==> KeyOn(place, inside, k)
    ensures !KeyOn(place, inside, k)
    ensures RunSteps(docs, steps).1 != RunSteps(docs[k := Null], steps).1
    decreases steps
  {
    var step := steps[0];
    if StepOn(place, inside, step) {
      var i :| 0 <= i < |steps| && !StepOn(place, inside, steps[i]);
      assert steps[1..][i - 1] == steps[i];
      k := StepsSee(place, inside, RunStep(docs, step).0, steps[1..]);
      SameStep(docs, step, k);
      SameHead(docs, steps, k);
    } else {
      k := step.key;
      StepSees(docs, step);
      Heads(docs, docs[k := Null], steps);
    }
  }

  /** A step on another key does the same beside a document at `k`. */
  lemma SameStep(docs: Docs, step: Step<Key>, k: Key)
    requires step.KeylessStep? || step.key != k
    ensures RunStep(docs[k := Null], step) == (RunStep(docs, step).0[k := Null], RunStep(docs, step).1)
  {
    match step
    case PutStep(_, key, doc) => assert docs[k := Null][key := doc] == docs[key := doc][k := Null];
    case DropStep(key) => assert docs[k := Null] - {key} == (docs - {key})[k := Null];
    case KeylessStep =>
  }

  lemma SameHead(docs: Docs, steps: seq<Step<Key>>, k: Key)
    requires steps != []
    requires RunStep(docs[k := Null], steps[0]) == (RunStep(docs, steps[0]).0[k := Null], RunStep(docs, steps[0]).1)
    requires var next := RunStep(docs, steps[0]).0;
             RunSteps(next, steps[1..]).1 != RunSteps(next[k := Null], steps[1..]).1
    ensures RunSteps(docs, steps).1 != RunSteps(docs[k := Null], steps).1
  {
    var next := RunStep(docs, steps[0]).0;
    assert RunSteps(docs, steps).1[1..] == RunSteps(next, steps[1..]).1;
    assert RunSteps(docs[k := Null], steps).1[1..] == RunSteps(next[k := Null], steps[1..]).1;
  }

  lemma Heads(docs: Docs, other: Docs, steps: seq<Step<Key>>)
    requires steps != [] && RunStep(docs, steps[0]).1 != RunStep(other, steps[0]).1
    ensures RunSteps(docs, steps).1 != RunSteps(other, steps).1
  {
    assert RunSteps(docs, steps).1[0] == RunStep(docs, steps[0]).1;
    assert RunSteps(other, steps).1[0] == RunStep(other, steps[0]).1;
  }

  lemma LookupsSee(ks: seq<Key>, i: nat)
    requires i < |ks|
    ensures LookupAll(map[], ks) != LookupAll(Only1(ks[i]), ks)
  {
    assert LookupAll(map[], ks)[i] == (ks[i], None);
    assert LookupAll(Only1(ks[i]), ks)[i] == (ks[i], Some(Null));
  }

  lemma OtherEmpty(place: Place, inside: bool, k: Key)
    requires !KeyOn(place, inside, k)
    ensures Side(place, inside, Only1(k)) == map[] && Side(place, inside, map[]) == map[]
  {
  }

  /** A store in which the operation does not live on its side. */
  lemma Strays(place: Place, inside: bool, op: Op<Key>) returns (docs: Docs)
    requires !KeysOn(place, inside, op)
    ensures !Lives(place, inside, docs, op)
  {
    match op
    case Write(k, doc) =>
      OtherEmpty(place, inside, k);
      docs := map[];
      assert k in Side(place, !inside, Exec(docs, op).0);
    case Erase(k) =>
      OtherEmpty(place, inside, k);
      docs := Only1(k);
      assert k in Side(place, !inside, docs);
    case Fetch(k) =>
      OtherEmpty(place, inside, k);
      docs := Only1(k);
    case FetchMany(ks) =>
      var i :| 0 <= i < |ks| && !KeyOn(place, inside, ks[i]);
      OtherEmpty(place, inside, ks[i]);
      LookupsSee(ks, i);
      docs := Only1(ks[i]);
    case Batch(steps) =>
      var k := StepsSee(place, inside, map[], steps);
      OtherEmpty(place, inside, k);
      docs := map[][k := Null];
      assert docs == Only1(k);
  }

  /** An operation lives on one side in every store exactly when every key it touches is there. */
  lemma LivesIff(place: Place, inside: bool, op: Op<Key>)
    ensures (forall docs :: Lives(place, inside, docs, op)) <==> KeysOn(place, inside, op)
  {
    if KeysOn(place, inside, op) {
      forall docs ensures Lives(place, inside, docs, op) { ExecLocal(place, inside, docs, op); }
    } else {
      var docs := Strays(place, inside, op);
      assert !Lives(place, inside, docs, op);
    }
  }

  // ----- a tenant's own operations -----

  function SharedPlace(sc: Scope): Place {
    OfIndex(sc.tenancy.sharedIndex)
  }

  /** What a tenant's operation touches is in the shared index. */
  lemma TenantKeys(sc: Scope, t: string, op: Op<string>)
    ensures KeysOn(SharedPlace(sc), true, PhysicalOp(sc, t, op))
  {
    match op
    case Batch(steps) =>
      forall i | 0 <= i < |steps| ensures StepOn(SharedPlace(sc), true, PhysicalSteps(sc, t, steps)[i]) {
        assert PhysicalSteps(sc, t, steps)[i] == PhysicalStep(sc, t, steps[i]);
      }
    case _ =>
  }
}
