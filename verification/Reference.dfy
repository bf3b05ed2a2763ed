/** The config-driven reference tenancy (crates/evoxy-filter/src/reference.rs) and the
    decision it resolves to. */
module Reference {
  import opened Common
  import opened Adapter
  import opened Transform
  import opened Route

  datatype Isolation = DedicatedCluster | DedicatedIndex | SharedIndex

  datatype Tenancy = Tenancy(
    isolation: Isolation,
    cluster: string,
    clusterBy: map<string, string>,
    endpoint: string,
    endpointBy: map<string, string>,
    partitionHeader: string,
    fromPrincipal: bool,
    defaultPartition: Option<string>,
    indexTemplate: string,
    sharedIndex: string,
    injectField: string,
    idTemplate: string,
    routing: bool,
    migration: Option<(string, MigrationPhase)>)
  {
    function ClusterFor(partition: string): string {
      if partition in clusterBy then clusterBy[partition] else cluster
    }

    function EndpointFor(partition: string): string {
      if partition in endpointBy then endpointBy[partition] else endpoint
    }

    function IndexFor(partition: string): string {
      Substitute(indexTemplate, partition)
    }

    function PhaseOf(partition: string): MigrationPhase {
      if migration.Some? && migration.value.0 == partition then migration.value.1 else Settled
    }

    function ResolvePartition(ctx: Ctx): Result<string, SpiError> {
      var raw := if fromPrincipal then (if ctx.principal == "" then None else Some(ctx.principal))
                 else HeaderValue(ctx.headers, partitionHeader);
      var found := if raw.Some? then raw else defaultPartition;
      if found.Some? then Ok(found.value) else Err(PartitionUnresolved)
    }

    /** The write gate: only a partition in cutover is held. */
    predicate AdmitWrite(partition: string) {
      PhaseOf(partition) != Cutover
    }

    function IdRule(): DocIdRule {
      DocIdRule(idTemplate, routing)
    }

    /** The decision for a partition: shared mode injects and constructs, the dedicated
        modes leave bodies and ids alone. */
    function Decide(partition: string, logicalIndex: string): Resolved {
      var index := match isolation
                   case DedicatedCluster => logicalIndex
                   case DedicatedIndex => IndexFor(partition)
                   case SharedIndex => sharedIndex;
      var transform := if isolation.SharedIndex?
                       then Both([InjectedField(injectField, PartitionId)], IdRule()) else NoTransform;
      Resolved(partition, Target(ClusterFor(partition), index, Some(EndpointFor(partition))),
               transform, [], 1, PhaseOf(partition))
    }

    function Resolve(ctx: Ctx): Result<Resolved, SpiError> {
      var partition :- ResolvePartition(ctx);
      Ok(Decide(partition, ctx.logicalIndex))
    }

    function AsRouter(): Router {
      Router(ctx => Resolve(ctx), (partition, epoch) => AdmitWrite(partition))
    }
  }

  /** The reference tenancy never looks at a body, so its phases agree. */
  lemma ReferenceIsBodyIndependent(tenancy: Tenancy)
    ensures BodyIndependent(tenancy.AsRouter())
  {
    forall ctx: Ctx, body: string
      ensures tenancy.AsRouter().resolve(ctx.(body := body)) == tenancy.AsRouter().resolve(ctx)
    {
      assert tenancy.Resolve(ctx.(body := body)) == tenancy.Resolve(ctx);
    }
  }

  // ----- dedicated-index mode -----

  const PLACEHOLDER := "{partition}"

  /** `template.replace("{partition}", partition)`. */
  function Substitute(template: string, partition: string): string {
    if template == "" then ""
    else if PLACEHOLDER <= template then partition + Substitute(template[|PLACEHOLDER|..], partition)
    else [template[0]] + Substitute(template[1..], partition)
  }

  predicate Mentions(template: string) {
    template != "" && (PLACEHOLDER <= template || Mentions(template[1..]))
  }

  lemma {:induction false} SubstituteLength(template: string, p: string, q: string)
    requires |p| <= |q|
    ensures |Substitute(template, p)| <= |Substitute(template, q)|
    ensures Mentions(template) && |p| < |q| ==> |Substitute(template, p)| < |Substitute(template, q)|
  {
    if template != "" {
      SubstituteLength(if PLACEHOLDER <= template then template[|PLACEHOLDER|..] else template[1..], p, q);
    }
  }

  lemma {:induction false} SubstituteInjective(template: string, p: string, q: string)
    requires Mentions(template) && |p| == |q| && Substitute(template, p) == Substitute(template, q)
    ensures p == q
  {
    var s, t := Substitute(template, p), Substitute(template, q);
    if PLACEHOLDER <= template {
      assert s[..|p|] == p && t[..|q|] == q;
    } else {
      assert s[1..] == Substitute(template[1..], p) && t[1..] == Substitute(template[1..], q);
      SubstituteInjective(template[1..], p, q);
    }
  }

  lemma {:induction false} SubstituteConstant(template: string, p: string)
    requires !Mentions(template)
    ensures Substitute(template, p) == template
  {
    if template != "" { SubstituteConstant(template[1..], p); }
  }

  /** The first placeholder gives way to the partition, the text before it stays, and the text
      behind it is substituted in turn. */
  lemma {:induction false} SubstituteFirst(before: string, behind: string, p: string)
    requires forall i: nat :: i < |before| ==> !(PLACEHOLDER <= (before + (PLACEHOLDER + behind))[i..])
    ensures Substitute(before + (PLACEHOLDER + behind), p) == before + (p + Substitute(behind, p))
  {
    var template := before + (PLACEHOLDER + behind);
    if before == "" {
      assert template == PLACEHOLDER + behind;
      assert template[|PLACEHOLDER|..] == behind;
    } else {
      assert template[0..] == template;
      assert template[1..] == before[1..] + (PLACEHOLDER + behind);
      forall i: nat | i < |before[1..]| ensures !(PLACEHOLDER <= (before[1..] + (PLACEHOLDER + behind))[i..]) {
        assert template[i + 1..] == (before[1..] + (PLACEHOLDER + behind))[i..];
      }
      SubstituteFirst(before[1..], behind, p);
    }
  }

  lemma {:induction false} NeverMentions(template: string)
    requires Free(template, '{')
    ensures !Mentions(template)
  {
    if template != "" {
      assert template[0] != PLACEHOLDER[0];
      NeverMentions(template[1..]);
    }
  }

  /** A template with one placeholder names a partition's index by the text around it. */
  lemma IndexNamed(tenancy: Tenancy, before: string, behind: string, t: string)
    requires tenancy.indexTemplate == before + ("{partition}" + behind) && Free(before, '{') && Free(behind, '{')
    ensures tenancy.IndexFor(t) == before + (t + behind)
  {
    forall i: nat | i < |before| ensures !(PLACEHOLDER <= tenancy.indexTemplate[i..]) {
      assert tenancy.indexTemplate[i..][0] == before[i] && before[i] in before;
      assert PLACEHOLDER[0] == '{';
    }
    SubstituteFirst(before, behind, t);
    NeverMentions(behind);
    SubstituteConstant(behind, t);
  }

  ghost predicate IndicesDiffer(template: string) {
    forall p, q :: Substitute(template, p) == Substitute(template, q) ==> p == q
  }

  /** Tenants have different physical indices exactly when the template mentions the
      partition at all. */
  lemma IndicesDifferIff(template: string)
    ensures IndicesDiffer(template) <==> Mentions(template)
  {
    if Mentions(template) {
      forall p, q | Substitute(template, p) == Substitute(template, q) ensures p == q {
        SubstituteLength(template, if |p| <= |q| then p else q, if |p| <= |q| then q else p);
        SubstituteInjective(template, p, q);
      }
    } else {
      SubstituteConstant(template, "a");
      SubstituteConstant(template, "b");
      assert "a" != "b";
    }
  }
}
