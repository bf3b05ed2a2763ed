/** The document store as seen through its API: one write, delete, get, multi-get or bulk
    request at a time over a map from keys to documents. The same engine runs over the keys
    of the shared index and over one tenant's own ids. */
module Engine {
  import opened Common
  import opened Json
  import opened Ndjson

  /** One action of a bulk request. `PutStep` with `Create` refuses an existing key. */
  datatype Step<K> =
    | PutStep(action: BulkAction, key: K, doc: Json)
    | DropStep(key: K)
    | KeylessStep

  datatype Op<K> =
    | Write(key: K, doc: Json)
    | Erase(key: K)
    | Fetch(key: K)
    | FetchMany(keys: seq<K>)
    | Batch(steps: seq<Step<K>>)

  datatype Outcome<K> = Acted(action: BulkAction, key: K, status: nat) | Keyless

  datatype Answer<K> =
    | Written(key: K, created: bool)
    | Erased(key: K, found: bool)
    | Fetched(key: K, doc: Option<Json>)
    | FetchedMany(docs: seq<(K, Option<Json>)>)
    | BatchDone(outcomes: seq<Outcome<K>>)

  function Lookup<K(==)>(docs: map<K, Json>, key: K): Option<Json> {
    if key in docs then Some(docs[key]) else None
  }

  function LookupAll<K(==)>(docs: map<K, Json>, keys: seq<K>): (r: seq<(K, Option<Json>)>)
    ensures |r| == |keys| && forall i :: 0 <= i < |keys| ==> r[i] == (keys[i], Lookup(docs, keys[i]))
  {
    if keys == [] then [] else [(keys[0], Lookup(docs, keys[0]))] + LookupAll(docs, keys[1..])
  }

  function RunStep<K(==)>(docs: map<K, Json>, step: Step<K>): (map<K, Json>, Outcome<K>) {
    match step
    case PutStep(action, key, doc) =>
      if action.Create? && key in docs then (docs, Acted(action, key, 409))
      else (docs[key := doc], Acted(action, key, if key in docs then 200 else 201))
    case DropStep(key) => (docs - {key}, Acted(Delete, key, if key in docs then 200 else 404))
    case KeylessStep => (docs, Keyless)
  }

  function RunSteps<K(==)>(docs: map<K, Json>, steps: seq<Step<K>>): (map<K, Json>, seq<Outcome<K>>)
    decreases steps
  {
    if steps == [] then (docs, []) else
      var first := RunStep(docs, steps[0]);
      var rest := RunSteps(first.0, steps[1..]);
      (rest.0, [first.1] + rest.1)
  }

  function Exec<K(==)>(docs: map<K, Json>, op: Op<K>): (map<K, Json>, Answer<K>) {
    match op
    case Write(key, doc) => (docs[key := doc], Written(key, key !in docs))
    case Erase(key) => (docs - {key}, Erased(key, key in docs))
    case Fetch(key) => (docs, Fetched(key, Lookup(docs, key)))
    case FetchMany(keys) => (docs, FetchedMany(LookupAll(docs, keys)))
    case Batch(steps) =>
      var r := RunSteps(docs, steps);
      (r.0, BatchDone(r.1))
  }

  // ----- the answer as JSON -----

  /** The index and id a key is presented as. */
  type Naming<!K> = K -> (string, string)

  function DocFields(name: (string, string), doc: Option<Json>): Fields {
    [("_index", Str(name.0)), ("_id", Str(name.1)), ("found", Bool(doc.Some?))]
    + if doc.Some? then [("_source", doc.value)] else []
  }

  function DocsJson<K>(docs: seq<(K, Option<Json>)>, naming: Naming<K>): (r: seq<Json>)
    ensures |r| == |docs|
    ensures forall i :: 0 <= i < |docs| ==> r[i] == Obj(DocFields(naming(docs[i].0), docs[i].1))
  {
    if docs == [] then []
    else [Obj(DocFields(naming(docs[0].0), docs[0].1))] + DocsJson(docs[1..], naming)
  }

  function StatusText(status: nat): string {
    if status == 200 then "200" else if status == 201 then "201"
    else if status == 404 then "404" else "409"
  }

  function OutcomeJson<K>(o: Outcome<K>, naming: Naming<K>): Json {
    match o
    case Acted(action, key, status) =>
      Obj([(Verb(action), Obj([("_index", Str(naming(key).0)), ("_id", Str(naming(key).1)),
                               ("status", Num(StatusText(status)))]))])
    case Keyless => Obj([("delete", Obj([("status", Num("400"))]))])
  }

  function OutcomesJson<K>(os: seq<Outcome<K>>, naming: Naming<K>): (r: seq<Json>)
    ensures |r| == |os| && forall i :: 0 <= i < |os| ==> r[i] == OutcomeJson(os[i], naming)
  {
    if os == [] then [] else [OutcomeJson(os[0], naming)] + OutcomesJson(os[1..], naming)
  }

  function BatchJson(items: seq<Json>): Json {
    Obj([("took", Num("0")), ("items", Arr(items))])
  }

  function AnswerJson<K>(a: Answer<K>, naming: Naming<K>): Json {
    match a
    case Written(key, created) =>
      Obj([("_index", Str(naming(key).0)), ("_id", Str(naming(key).1)),
           ("result", Str(if created then "created" else "updated"))])
    case Erased(key, found) =>
      Obj([("_index", Str(naming(key).0)), ("_id", Str(naming(key).1)),
           ("result", Str(if found then "deleted" else "not_found"))])
    case Fetched(key, doc) => Obj(DocFields(naming(key), doc))
    case FetchedMany(docs) => Obj([("docs", Arr(DocsJson(docs, naming)))])
    case BatchDone(os) => BatchJson(OutcomesJson(os, naming))
  }
}
