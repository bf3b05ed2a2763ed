/** Applying a routing decision to one document, one id, one query
    (crates/evoxy-route/src/transform.rs and crates/evoxy-route/src/read.rs). */
module Transform {
  import opened Common
  import opened Json
  import opened Rewrite

  datatype InjectedValue =
    | Constant(v: Json)
    | PartitionId
    | FromPrincipal(attr: string)
    | FromHeader(header: string)

  datatype InjectedField = InjectedField(name: string, value: InjectedValue)

  datatype DocIdRule = DocIdRule(template: string, setRouting: bool)

  datatype BodyTransform =
    | NoTransform
    | Inject(fields: seq<InjectedField>)
    | Construct(rule: DocIdRule)
    | Both(inject: seq<InjectedField>, id: DocIdRule)
  {
    function Rule(): Option<DocIdRule> {
      match this
      case Construct(rule) => Some(rule)
      case Both(_, rule) => Some(rule)
      case _ => None
    }

    function Injected(): seq<InjectedField> {
      match this
      case Inject(fields) => fields
      case Both(fields, _) => fields
      case _ => []
    }
  }

  datatype Target = Target(cluster: string, index: string, endpoint: Option<string>)

  datatype HeaderOp =
    | AddHeader(name: string, value: string)
    | ReplaceHeader(name: string, value: string)
    | RemoveHeader(name: string)

  datatype MigrationPhase = Settled | Draining | Cutover

  /** A routing decision for one request: whose it is, where it goes, how it changes. */
  datatype Resolved = Resolved(
    partition: string,
    target: Target,
    transform: BodyTransform,
    headerOps: seq<HeaderOp>,
    epoch: nat,
    migration: MigrationPhase)

  datatype PrepareError = RewriteFailed(error: RewriteError) | UnresolvedInjectedValue

  /** A primitive's error inside the route crate. */
  function Lift<T>(r: Result<T, RewriteError>): Result<T, PrepareError> {
    match r
    case Ok(v) => Ok(v)
    case Err(e) => Err(RewriteFailed(e))
  }

  datatype Transformed = Transformed(id: Option<string>, body: string, routing: Option<string>)

  // ----- transform.rs -----

  function ResolveValues(fields: seq<InjectedField>, partition: string): Result<Fields, PrepareError> {
    if fields == [] then Ok([]) else
      match fields[0].value
      case FromPrincipal(_) => Err(UnresolvedInjectedValue)
      case FromHeader(_) => Err(UnresolvedInjectedValue)
      case Constant(v) =>
        var rest :- ResolveValues(fields[1..], partition);
        Ok([(fields[0].name, v)] + rest)
      case PartitionId =>
        var rest :- ResolveValues(fields[1..], partition);
        Ok([(fields[0].name, Str(partition))] + rest)
  }

  function InjectInto(body: string, fields: seq<InjectedField>, partition: string): Result<string, PrepareError> {
    var resolved :- ResolveValues(fields, partition);
    Lift(InjectFields(body, resolved))
  }

  function RoutingFor(t: BodyTransform, partition: string): Option<string> {
    if t.Rule().Some? && t.Rule().value.setRouting then Some(partition) else None
  }

  function Apply(body: string, t: BodyTransform, partition: string): Result<Transformed, PrepareError> {
    match t
    case NoTransform =>
      var _ :- Lift(ValidateObject(body));
      Ok(Transformed(None, body, RoutingFor(t, partition)))
    case Inject(fields) =>
      var out :- InjectInto(body, fields, partition);
      Ok(Transformed(None, out, RoutingFor(t, partition)))
    case Construct(rule) =>
      var _ :- Lift(ValidateObject(body));
      var id :- Lift(ConstructId(rule.template, partition, body));
      Ok(Transformed(Some(id), body, RoutingFor(t, partition)))
    case Both(fields, rule) =>
      var out :- InjectInto(body, fields, partition);
      var id :- Lift(ConstructId(rule.template, partition, body));
      Ok(Transformed(Some(id), out, RoutingFor(t, partition)))
  }

  // ----- read.rs -----

  /** The physical id of a client's id. */
  function MapId(t: BodyTransform, partition: string, logical: string): Result<string, PrepareError> {
    match t.Rule()
    case Some(rule) => Lift(MapLogicalToPhysical(rule.template, partition, logical))
    case None => Ok(logical)
  }

  function PhysicalId(t: BodyTransform, partition: string, logical: string)
    : Result<(string, Option<string>), PrepareError>
  {
    match t.Rule()
    case Some(rule) =>
      var physical :- Lift(MapLogicalToPhysical(rule.template, partition, logical));
      Ok((physical, if rule.setRouting then Some(partition) else None))
    case None => Ok((logical, None))
  }

  function PartitionTerms(fields: seq<InjectedField>, partition: string): Fields {
    if fields == [] then []
    else (if fields[0].value.PartitionId? then [(fields[0].name, Str(partition))] else [])
         + PartitionTerms(fields[1..], partition)
  }

  /** One term per injected field that carries the partition id. */
  function FilterTerms(t: BodyTransform, partition: string): Fields {
    PartitionTerms(t.Injected(), partition)
  }

  const MATCH_ALL := Obj([("match_all", Obj([]))])

  function TermClauses(terms: Fields): seq<Json> {
    if terms == [] then [] else [Obj([("term", Obj([terms[0]]))])] + TermClauses(terms[1..])
  }

  /** The query of a search body; a body without one matches everything. */
  function QueryIn(fs: Fields): Json {
    if Get(fs, "query").Some? then Get(fs, "query").value else MATCH_ALL
  }

  function Wrapped(query: Json, terms: Fields): Json {
    Obj([("bool", Obj([("must", Arr([query])), ("filter", Arr(TermClauses(terms)))]))])
  }

  /** `wrap_query`. */
  function WrapQuery(body: string, terms: Fields): Result<string, RewriteError> {
    var fs :- ParseObject(body);
    Ok(Print(Obj(Insert(fs, "query", Wrapped(QueryIn(fs), terms)))))
  }

  function FilteredQuery(body: string, terms: Fields): Result<string, PrepareError> {
    if terms == [] then Ok(body)
    else Lift(WrapQuery(if body == "" then "{}" else body, terms))
  }

  // ----- what a transform does to a document -----

  /** The constants of a decision are JSON values, as `serde_json::Value` guarantees. */
  predicate ValidTransform(t: BodyTransform) {
    forall i :: 0 <= i < |t.Injected()| && t.Injected()[i].value.Constant? ==> Valid(t.Injected()[i].value.v)
  }

  lemma {:induction false} ResolvedValid(fields: seq<InjectedField>, partition: string)
    requires forall i :: 0 <= i < |fields| && fields[i].value.Constant? ==> Valid(fields[i].value.v)
    requires ResolveValues(fields, partition).Ok?
    ensures |ResolveValues(fields, partition).value| == |fields|
    ensures forall i :: 0 <= i < |fields| ==> ValidField(ResolveValues(fields, partition).value[i])
  {
    if fields != [] { ResolvedValid(fields[1..], partition); }
  }

  /** An injected value that only the client's request could give. */
  predicate FromRequest(v: InjectedValue) {
    v.FromPrincipal? || v.FromHeader?
  }

  /** The injected fields have their values, constants and the partition, exactly when none is to
      come from the request. */
  lemma {:induction false} ResolvedIff(fields: seq<InjectedField>, partition: string)
    ensures ResolveValues(fields, partition).Ok? <==> forall i :: 0 <= i < |fields| ==> !FromRequest(fields[i].value)
    ensures ResolveValues(fields, partition).Err? ==> ResolveValues(fields, partition).error == UnresolvedInjectedValue
    ensures ResolveValues(fields, partition).Ok? ==>
              var r := ResolveValues(fields, partition).value;
              |r| == |fields| && forall i :: 0 <= i < |fields| ==>
                r[i] == (fields[i].name, if fields[i].value.Constant? then fields[i].value.v else Str(partition))
  {
    if fields != [] {
      ResolvedIff(fields[1..], partition);
      assert forall i :: 0 < i < |fields| ==> fields[i] == fields[1..][i - 1];
      assert forall i :: 0 <= i < |fields[1..]| ==> fields[1..][i] == fields[i + 1];
    }
  }

  /** A read is filtered by a term exactly for every injected field that carries the partition. */
  lemma {:induction false} FilteredByIff(fields: seq<InjectedField>, partition: string, term: (string, Json))
    ensures term in PartitionTerms(fields, partition) <==>
            term.1 == Str(partition) && InjectedField(term.0, PartitionId) in fields
  {
    if fields != [] {
      FilteredByIff(fields[1..], partition, term);
      assert fields == [fields[0]] + fields[1..];
    }
  }

  /** A transformed document is one line whenever the client's was. */
  lemma ApplyOneLine(body: string, t: BodyTransform, partition: string)
    requires Free(body, '\n') && ValidTransform(t) && Apply(body, t, partition).Ok?
    ensures Free(Apply(body, t, partition).value.body, '\n')
  {
    if t.Inject? || t.Both? {
      var resolved := ResolveValues(t.Injected(), partition).value;
      ResolvedValid(t.Injected(), partition);
      ParseValid(body);
      var fs := ParseObject(body).value;
      AddFieldsValid(fs, resolved);
      PrintOneLine(Obj(AddFields(fs, resolved).value));
    }
  }
}
