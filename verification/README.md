# evoxy, modelled and proved

evoxy is an Envoy extension that puts many tenants on one OpenSearch. It takes a tenant's
logical request, decides where the tenant lives, rewrites the request into the physical one
Envoy forwards, and maps the response back. This project models that data path and proves
what it promises.

Six groups of modules, from the bottom up.

- **The rewriter.** `Json`, `Percent`, `Rewrite` and `Ndjson` define bodies, escaping, id templates
  and line-delimited bodies. `Adapter` classifies paths; `Transform`, `Bulk`, `Demux` and `Response` are
  the transforms and their inverses; `Route` is the dispatch and `Authority` its upstream host;
  `Reference` is the config-driven tenancy.
  `Engine` is an abstract document store, `Shared` relates one shared store to many private ones,
  `Wire` reads what was forwarded, `Replies` shapes what comes back. `Runs` proves the refinement
  over whole runs, `Isolation` says exactly when tenants are isolated and `Search` does queries.
  `Sides` splits a store into a place and the rest; `Dedicated`, `DedicatedReads`, `DedicatedWrites`,
  `DedicatedSearches` and `DedicatedRuns` are the dedicated modes.
- **What it comes to, spelled out.** `Configured` says what the configuration decides of a prepared
  request, `Refusals` what is refused and how, `Shapes` what any answer is shown as and that what was
  written comes back, `Paths`, `Requests` and `Spelled` how paths, header lists and bodies are read,
  `Processed` and `Introspected` what the service answers.
- **The whole brain over raw requests.** `EndToEnd` lifts the refinement to raw requests, tenants in
  headers or in paths, indices bypassed or not; `Raw` and `Foreign` say what is shown when an answer is
  not shaped, or shaped for another request. `PathTenants`, `BypassReach` and `Searches` read off what
  tenant-prefixed requests, bypassed requests and searches come to.
- **The brain and its backends.** `Filter` is the brain as a sequence of effects, `Prefixed` what its
  phases make of a tenant-prefixed path, `AsyncWrite` the 202 protocol, `Records` what its records
  tell apart, `Recorders` the two effect recorders, `Observe` the introspection surface and `ExtProc` the message state machine with shared
  counters.
- **Codecs.** `Percent`, `Xfcc`, `Certificates` and `Bridge` (the capture bridge's framing).
- **Arithmetic.** `Bench`, the nearest-rank percentiles.

## How the model stands to the code

- `osproxy-rewrite`, `osproxy-tenancy`, `osproxy-spi` and `serde_json` are not part of this
  repository. Their primitives are defined here concretely, to the behaviour the repository's tests
  pin: an id template of literals, `{partition}` and one `{body.field}`; a template without exactly
  one body field is an error when mapping a logical id; a name already in the body, or injected
  twice, collides; a client's query is wrapped in `bool.must` with one `term` per partition field in
  `bool.filter`. Laws about them are proved, none is assumed.
- Bodies are text. JSON keeps the order of its fields and the text of its numbers; a repeated key
  counts once, with its last value. Printing and parsing is proved to be a round trip.
- A request context is decided by a deterministic router. The run theorems use the reference tenancy;
  the other theorems hold for any router, or any that does not look at the body.
- The store theorem's reference point is a private store for each tenant, run by the same engine.
  The logical index is not part of the key, because the code does not put it there.
- Routing picks a shard only, so it is no part of a stored document's address.
- Envoy applies an ext_proc answer as the recorder's own comments say: removals before settings, then
  the body (crates/evoxy-extproc/src/actions.rs:6-9). It applies the module's calls one by one.
- Multiplication of 64-bit numbers in the percentile rank wraps around.

## What the code does that its documentation does not say

Each is proved, with the exact condition where there is one.

- Two partitions whose separator-ended prefixes are comparable can share a stored id, and then one
  tenant reads the other's document (`Shared.IdsMeetIff`, `Isolation.IsolatedIff`,
  `Isolation.ColonTenantsLeak`).
- The id in the path of a shared-mode write is ignored: the body's id field decides
  (`Runs.PathIdFoundIff`). A bulk item must carry that field even when its action line names the id
  (`Wire.BulkItemTakenIff`). `_create` and `_update` become full replacements
  (`Route.CreateAndUpdateReplace`).
- A by-id path id is mapped as it stands on the wire, without percent-decoding
  (`Route.EscapedPathIdIff`). Index names are written into paths unescaped, so a dedicated index whose
  name holds a slash is not the one written to (`Route.IndexReadIff`, `Dedicated.SingleWriteReachesIff`,
  `Dedicated.SlashTenantsCollide`).
- `unquote` promises to return a bare value as it is, but unescapes it (`Xfcc.UnquoteBareIff`).
- `explain`, `shape_response` and `is_write` skip the path-tenant rewrite (`Prefixed.PrefixedWriteIff`,
  `Prefixed.PrefixedShapedIff`, `Prefixed.PrefixedExplainedIff`). So a tenant-prefixed asynchronous write
  is refused as a read unless its prefixed path happens to read as a write
  (`AsyncWrite.PrefixedRefusedIff`), and a tenant-prefixed get is shown the physical document
  (`PathTenants.PrefixedGetShown`). A cluster-level `_bulk` or `_mget` behind a tenant segment is shaped
  under the tenant's name as index when its unrewritten path resolves a partition, as it does with a
  default partition (`PathTenants.ClusterLevelShaped`), and is left unshaped otherwise; either way it is
  shown as the tenant's own exactly when it names no document (`PathTenants.ClusterLevelShownIff`).
- The bypass looks at the index in the path alone. A multi-get through a bypassed index whose body
  names the shared index is answered from there, without a tenant
  (`BypassReach.BypassReadsShared`); and a bypassed answer is still shaped
  (`BypassReach.BypassedGetIff`).
- A client header of the same name comes before the path's tenant (`Filter.PathTenantReadIff`).
- The module builds every request without an identity: keyed by the principal, its clients all share
  the anonymous partition (`ExtProc.ModuleClientsShare`), and with certificates required it refuses
  every write (`ExtProc.ModuleDiffersIff`).
- An asynchronous write that bypasses tenancy is recorded with an empty body
  (`AsyncWrite.RecordIsForwardedIff`). Records hold path and body, not the method and not the cluster: a bypassed put and
  delete of one document are one record (`Records.PutAndDeleteRecordAlike`), and with dedicated clusters
  so are two tenants' writes of one document (`Records.DedicatedRecordsCoincide`).
- With a dedicated cluster every item of a cluster-level `_bulk`, and every document of a cluster-level
  `_mget`, is rewritten to the empty index, whatever index it named (`Dedicated.ClusterLevelIndexLost`,
  `DedicatedReads.MgetAsks`).
- With an id template that is nothing but the body's field, a by-id request with an empty id is
  forwarded to a path that names no document (`Wire.ForwardReadsIff`).
- ext_proc compares a new path with the old one without its query, so the query stays where the
  module drops it (`Recorders.BackendsAgreeIff`); in the default mode every search with a query string
  is such a request (`ExtProc.DefaultSearchKeepsQuery`).
- A configured admin token with white space at an end can never be presented (`Observe.PresentableIff`).
- A mirrored request with bytes behind it is captured with those that came in the same read
  (`Bridge.ExactBodyIff`).
- Past 64 bits the percentile rank is too small (`Bench.RankExactIff`).

## Model

| member | source | states |
|---|---|---|
| `EndToEnd.BrainRunRefines` | crates/evoxy-filter/src/lib.rs:153-266 | For every run of raw requests of separated tenants, bypassed requests that keep away from the shared index among them, the one store stays the disjoint union of the private stores and the other indices. Request by request a client is shown what those separate stores would show it, exactly when the tenant was not taken from the path, or the answer shaped for the path as it came has the same text |
| `EndToEnd.BrainIsShared` | crates/evoxy-filter/src/lib.rs:160-198 | For every brain, the brain adds only its own refusals (unsupported method, missing certificate) and the bypass to the rewriting, and shows what the rewriting shows whenever it did not take the tenant from the path |
| `Foreign.AnswerShows` | crates/evoxy-filter/src/lib.rs:258-265 | What any answer of one tenant reads like when shaped for any other request: under which index and ids its documents are named, or that it is left as it is |
| `Foreign.TextAlikeIff` | crates/evoxy-filter/src/lib.rs:258-265 | That text is the tenant's own exactly when the condition `EndToEnd.BrainRunRefines` asks for holds, read off the request, the operation and the tenant's own store |
| `Raw.UnmappedIff` | crates/evoxy-route/src/response.rs:99-117 | Another partition's view names a document as its owner does exactly when both partitions have one physical id for it, or the owner's ids are unmapped and the other maps none there |
| `Sides.LivesIff` | crates/evoxy-filter/src/lib.rs:187-195 | An operation is answered from one side of the store and changes only that side, in every store, exactly when every key it touches is on that side |
| `BypassReach.BypassReadsShared` | crates/evoxy-filter/src/lib.rs:187-195 | A bypassed multi-get that sends what a tenant's own multi-get is forwarded as is shown that tenant's stored documents, raw and stamped, without naming a tenant |
| `BypassReach.BypassedMgetStrays` | crates/evoxy-filter/src/lib.rs:187-195 | Such a request keeps away from the shared index exactly when it names no document |
| `BypassReach.BypassedGetIff` | crates/evoxy-filter/src/lib.rs:258-265 | The answer to a get through a bypassed index, where a partition is found, is shown as it is exactly when the document is absent or has no field named like the isolation field |
| `PathTenants.UnshapedIff` | crates/evoxy-filter/src/lib.rs:258-265 | A tenant-prefixed request's responses stay unshaped exactly when its path, tenant in the index's place, is no shaped request's, or no partition is found for it |
| `PathTenants.PrefixedGetShown` | crates/evoxy-filter/src/lib.rs:258-265 | A tenant-prefixed get is shown the physical index and id and the stamped document |
| `PathTenants.PrefixedGetIff` | crates/evoxy-filter/src/lib.rs:258-265 | That is what its own store would have shown exactly when the document is absent and has the same index and id there, which no template with text around the id allows |
| `PathTenants.ClusterLevelShownIff` | crates/evoxy-filter/src/lib.rs:258-265 | A cluster-level `_bulk` or `_mget` behind a tenant segment, shaped or not, is shown as the tenant's own exactly when the request is refused or names no document |
| `PathTenants.ClusterLevelStep` | crates/evoxy-filter/src/lib.rs:139-146 | The same of one step of the brain on any represented store |
| `PathTenants.ClusterLevelShaped` | crates/evoxy-filter/src/lib.rs:258-265 | With a default partition every such request, of a tenant not named like an administrative root, has its response shaped |
| `PathTenants.PrefixedGetIs` | crates/evoxy-filter/src/lib.rs:139-146 | Every get behind a tenant segment, of an index not named like an operation, is such a request |
| `Raw.RawTextIff` | crates/evoxy-filter/src/lib.rs:258-265 | The raw text of any answer equals the tenant's own text exactly when every document it names is absent and has the same index and id in both |
| `Runs.RunRefines` | crates/evoxy-route/src/lib.rs:157-192 | The same over every run of single writes, deletes, gets, multi-gets and bulk requests, from any represented store |
| `Runs.IsolationFromEmpty` | crates/evoxy-filter/src/reference.rs:364-381 | Starting empty, all runs of any separated tenants stay isolated |
| `Runs.NonInterference` | crates/evoxy-route/src/lib.rs:385-409 | Whatever the other tenants do in between, a tenant's next request shows what it would have shown before |
| `Runs.SeparationNeeded` | crates/evoxy-route/src/transform.rs:64-67 | When two tenants' ids coincide, one reads the other's document where its own store has none |
| `Isolation.IsolatedIff` | crates/evoxy-route/src/transform.rs:64-67 | Over all runs from an empty index every client sees what its own store would show, if and only if no two tenants of one cluster can share an id, or no body can be stored at all |
| `Isolation.MeetingIdsLeak` | crates/evoxy-route/src/transform.rs:64-67 | The run of one put and one get that shows it otherwise, written out for any two tenants whose ids meet |
| `Isolation.ColonTenantsLeak` | crates/evoxy-filter/src/reference.rs:25 | Under the default template tenant `a:b` reads as its `1` what tenant `a` stored as `b:1` |
| `Runs.RenamedRunsAlias` | crates/evoxy-filter/src/reference.rs:372-376 | In shared mode, renaming the logical indices of any run, request by request, leaves the same store |
| `Runs.HeldTenantFrozen` | crates/evoxy-filter/src/reference.rs:357-362 | Over every run of any tenants, the tenant configured as in cutover keeps its documents as they were: the write gate holds its writes on every endpoint |
| `Runs.PathIdFoundIff` | crates/evoxy-route/src/lib.rs:423-425 | A document put at an unused path id is read back there exactly when its own id field says the same id |
| `Shared.IdsMeetIff` | crates/evoxy-route/src/transform.rs:64-67 | Two tenants can share a physical id exactly when their id prefixes are prefix-comparable and their suffixes suffix-comparable |
| `Shared.DefaultTemplateMeets` | crates/evoxy-filter/src/reference.rs:93-110 | For the default template this is comparability of partition-plus-colon, with a concrete colliding pair |
| `Shared.DefaultTemplateShape` | crates/evoxy-filter/src/reference.rs:25 | The default id template is one the run theorems cover: partition, colon, the body's id |
| `Shared.OpSimulates` | crates/evoxy-filter/src/reference.rs:364-381 | One operation on the shared store is the operation on its tenant's private store, with no other store changed and the same answer up to renaming |
| `Wire.ForwardReads` | crates/evoxy-route/src/lib.rs:412-487 | What the upstream reads in a forwarded request is the tenant's operation on physical keys and stamped documents; a request that cannot mean one is refused with its exact reply |
| `Wire.ForwardReadsIff` | crates/evoxy-route/src/lib.rs:464-472 | Exactly so long as a request for one document has a physical id that is not empty |
| `Wire.BulkItemTakenIff` | crates/evoxy-route/src/bulk.rs:28-46 | A bulk item with a source is taken exactly when the source leaves the isolation field alone and holds a scalar id field, even if the action line names the id |
| `Replies.MgetShaped` | crates/evoxy-route/src/response.rs:176-193 | The shaped multi-get answer is the private store's answer, text for text |
| `Replies.GetAnswerShaped` | crates/evoxy-route/src/response.rs:49-66 | The shaped get answer is the private store's answer, found or not |
| `Replies.BulkShaped` | crates/evoxy-route/src/response.rs:126-172 | The shaped bulk answer is the private store's answer item by item |
| `Search.SearchIsolated` | crates/evoxy-route/src/read.rs:61-70 | Whatever a query mentions, its wrapped form finds only documents of the tenant it was wrapped for |
| `Search.WrappedHolds` | crates/evoxy-route/src/read.rs:43-70 | A wrapped query holds of a document exactly when the client's query and every partition term do |
| `Search.SearchRefines` | crates/evoxy-route/src/read.rs:43-70 | For a query that looks only at client fields, the wrapped query's shared matches are exactly the keys of the private matches |
| `Search.CountRefines` | crates/evoxy-route/src/lib.rs:491-515 | Its shared count is the private count |
| `Search.NoQueryMatchesAll` | crates/evoxy-route/src/read.rs:61-70 | A body without a query, empty or an object that names none, asks for every document |
| `Search.AvoidingIsBlind` | crates/evoxy-route/src/read.rs:43-58 | A query looks only at client fields when none of its terms, however nested, names the isolation field and the engine's own clauses occurring in it do not see that field |
| `Search.TermBlindIff` | crates/evoxy-route/src/read.rs:43-58 | A single term looks only at client fields exactly when it does not ask for the tenant's own isolation value |
| `Search.SearchForwarded` | crates/evoxy-route/src/lib.rs:491-515 | A search or count reaches the shared index as the wrapped query; a body that is no object is answered 400 |
| `Search.MsearchRefines` | crates/evoxy-route/src/demux.rs:45-66 | At every position of a multi-search, header pinned and query wrapped, the shared matches are the private ones |
| `Search.SearchShown` | crates/evoxy-route/src/response.rs:72-117 | The shaped search answer lists the private matches in the same order, each once, as the tenant's own documents, and keeps whatever else the answer and each hit carry |
| `Search.AnyHitIsOn` | crates/evoxy-route/src/response.rs:99-117 | A hit with physical id, stamped source and any other fields meets that theorem's hypothesis |
| `Search.MsearchShown` | crates/evoxy-route/src/response.rs:199-213 | At every position of a multi-search that answers hits, the shared matches are shown as the private matches of the query asked there; every other response is kept |
| `Searches.BrainSearch` | crates/evoxy-route/src/lib.rs:491-515 | After every run of raw requests, other searches among them, a raw search has the shared index asked the wrapped query, and its client is shown the matches in its own store, in the upstream's order, each once |
| `Searches.RunWithout` | crates/evoxy-route/src/lib.rs:491-515 | Searches, counts and multi-searches anywhere in a run leave the store as the run without them would |
| `Searches.BrainCount` | crates/evoxy-route/src/lib.rs:491-515 | After every run, a raw count's wrapped query matches as many shared documents as the client's query matches of its own, and the answer is passed on |
| `Searches.BrainMsearch` | crates/evoxy-route/src/demux.rs:45-66 | After every run, a raw multi-search asks the shared index its wrapped queries position by position, and every position that answers hits is shown as the matches in the client's own store |
| `Dedicated.TenantsTouchApart` | crates/evoxy-filter/src/reference.rs:301-307 | In dedicated-index mode the writes, deletes and bulk requests of different tenants never touch one physical index, as long as single writes go to plain index names |
| `Dedicated.TouchesOwnIndex` | crates/evoxy-filter/src/reference.rs:364-371 | A forwarded write, as the upstream reads it, touches no index but its tenant's: bulk under any name, single writes under a plain one |
| `Dedicated.SingleWriteReachesIff` | crates/evoxy-route/src/lib.rs:533-545 | A single write reaches the index it is meant for exactly when that index's name is plain |
| `Dedicated.SlashTenantsCollide` | crates/evoxy-filter/src/reference.rs:301-307 | Otherwise tenants meet: under the template `{partition}` tenant `a/_doc/b` writes into the index of tenant `a`, for every plain `a` and `b` |
| `Dedicated.EntryKeptIff` | crates/evoxy-route/src/bulk.rs:63-85 | Every entry of a rewritten bulk body names the decision's index; it goes where its action line or the path asked exactly when that is the decision's index |
| `Dedicated.ClusterLevelIndexLost` | crates/evoxy-filter/src/reference.rs:364-381 | With a dedicated cluster an entry of a cluster-level bulk that names an index is rewritten to the empty one |
| `DedicatedReads.GetAsksIff` | crates/evoxy-route/src/lib.rs:464-472 | In the dedicated modes a get asks for the client's id in its own index exactly when that index's name is plain |
| `DedicatedReads.MgetAsks` | crates/evoxy-route/src/demux.rs:23-41 | In the dedicated modes a multi-get asks for every id it names, in order, in the one index of the decision |
| `DedicatedReads.GetShows` | crates/evoxy-route/src/response.rs:49-66 | In any store a get shows exactly what is stored there, under the client's own index and id |
| `DedicatedReads.MgetShows` | crates/evoxy-route/src/response.rs:176-193 | In any store a multi-get shows exactly what is stored behind each id, in order, found or not, under the client's own names |
| `DedicatedRuns.StaysHome` | crates/evoxy-filter/src/reference.rs:364-381 | What any request of a tenant asks of the store is in the tenant's own place, its index or its cluster |
| `DedicatedRuns.AloneInEveryRun` | crates/evoxy-filter/src/reference.rs:364-381 | In the dedicated modes, over every run and interleaving of tenants whose places are apart, in any store, each tenant is shown what it would be shown had the others never been there |
| `DedicatedRuns.PlacesApartIff` | crates/evoxy-filter/src/reference.rs:301-307 | Places are apart exactly when the tenants differ or, with dedicated clusters, when their clusters do |
| `DedicatedRuns.ClusterMatesReadAlike` | crates/evoxy-filter/src/reference.rs:364-381 | Two tenants sent to one dedicated cluster read the same documents, in every store |
| `DedicatedSearches.SearchForwardedAsIs` | crates/evoxy-route/src/lib.rs:491-515 | In the dedicated modes a search or count is forwarded with the client's own body, to its own index on its configured cluster |
| `DedicatedSearches.SearchReachesIff` | crates/evoxy-adapter/src/classify.rs:28-71 | That path is read as the same request of the same index exactly when the index is plain, or none was named |
| `DedicatedSearches.MsearchForwardedAsIs` | crates/evoxy-route/src/demux.rs:45-66 | A multi-search reads back with the client's own query at every position, each for its own index; a body that is none is refused |
| `DedicatedSearches.SearchesAlone` | crates/evoxy-filter/src/reference.rs:364-381 | After every run of tenants whose places are apart a query finds what it would find had the others never been there |
| `DedicatedWrites.WriteForwardedAsIs` | crates/evoxy-route/src/lib.rs:412-445 | In the dedicated modes a document is forwarded as the client wrote it, to its own id or none; one that is no object is refused |
| `DedicatedWrites.PutAsksIff` | crates/evoxy-route/src/lib.rs:423-425 | A put writes that document under the client's id in its own index exactly when the index is plain |
| `DedicatedWrites.DeleteAsksIff` | crates/evoxy-route/src/lib.rs:448-487 | A delete erases the document of that id likewise |
| `DedicatedWrites.PutThenGet` | crates/evoxy-route/src/response.rs:49-66 | In every store, what a tenant puts it then gets, under its own names, as it wrote it |
| `DedicatedWrites.BulkForwardedAsIs` | crates/evoxy-route/src/bulk.rs:20-60 | A bulk request is forwarded with the client's verbs, ids and sources, in order, for one index; refused exactly when it does not parse or a source is no object |
| `Reference.IndicesDifferIff` | crates/evoxy-filter/src/reference.rs:301-307 | Substituting the partition is injective exactly when the template mentions it |
| `Reference.IndexNamed` | crates/evoxy-filter/src/reference.rs:301-307 | A template with one placeholder names the index by the text around it and the partition |
| `Configured.PartitionIff` | crates/evoxy-filter/src/reference.rs:319-335 | The partition is the principal, or the value of the first header of the configured name in any case, else the default |
| `Configured.UnnamedRefused` | crates/evoxy-filter/src/reference.rs:319-335 | Without any of them every served request is answered 400 |
| `Configured.SentWhereConfigured` | crates/evoxy-filter/src/reference.rs:285-299 | A forwarded request of a tenant goes to the cluster configured for it, or the default one, under the authority of its base URL, or of the default one |
| `Configured.HandledWhereConfigured` | crates/evoxy-filter/src/reference.rs:364-381 | The same of a raw request through the whole brain |
| `Configured.ClusterOverride` | crates/evoxy-filter/src/reference.rs:285-290 | Giving one tenant a cluster sends its requests there, changes nothing else about them, and leaves every other request as prepared before |
| `Configured.EndpointOverride` | crates/evoxy-filter/src/reference.rs:293-298 | The same of a base URL and the upstream host |
| `Configured.DecisionIs` | crates/evoxy-filter/src/reference.rs:310-315 | A decision reports the phase of the migrating partition, and every other as settled |
| `Configured.HeldIff` | crates/evoxy-filter/src/reference.rs:357-362 | A served request of a tenant is answered 409 exactly when it is a write and the tenant is the one configured as in cutover |
| `Configured.MigrationUnseen` | crates/evoxy-filter/src/reference.rs:357-362 | A request that is not held is prepared as if there were no migration |
| `Reference.ReferenceIsBodyIndependent` | crates/evoxy-filter/src/reference.rs:319-335 | The reference tenancy never looks at the body |
| `Route.PhasesAgree` | crates/evoxy-route/src/lib.rs:157-245 | For every body-independent router, what the body phase forwards the header phase routes to the same cluster and host and explain reports; what they reject it rejects with the same status and code |
| `Refusals.PreparedInOrder` | crates/evoxy-route/src/lib.rs:157-192 | For every router: an unserved endpoint, a routing error and a held write are refused in this order, each with its own reply; what is left is refused for its body only or follows the decision's cluster, host and header operations |
| `Refusals.RequestValueRefused` | crates/evoxy-route/src/lib.rs:577-590 | A value that was to come from the request is answered 500, whatever the document |
| `Refusals.BodylessForwarded` | crates/evoxy-route/src/lib.rs:448-487 | A request for one document is forwarded in its own method, without a body |
| `Refusals.RefusalText` | crates/evoxy-route/src/lib.rs:548-552 | The text of a refusal is an object that names its code and nothing else |
| `Refusals.MethodRefusedIff` | crates/evoxy-adapter/src/lib.rs:138-150 | A method is refused exactly when it is not one of five, before anything else |
| `Paths.SegmentsConcat` | crates/evoxy-adapter/src/classify.rs:28-34 | The segments of a path are those before a slash and those behind it, wherever the slash |
| `Paths.SegmentsOne` | crates/evoxy-adapter/src/classify.rs:28-34 | A text without slashes is one segment, or none if it is empty |
| `Paths.OperationReadIff` | crates/evoxy-adapter/src/classify.rs:56-71 | An operation is asked of an index exactly by its name behind the index |
| `Paths.ClusterOperationReadIff` | crates/evoxy-adapter/src/classify.rs:39-43 | And of no index by its name alone |
| `Paths.DocumentRead` | crates/evoxy-adapter/src/classify.rs:73-84 | One document is read, deleted or written by method, under its id |
| `Paths.AdminReadIff` | crates/evoxy-adapter/src/classify.rs:45-46 | A path is administrative exactly when its first segment is one of six |
| `Paths.ScrollRead` | crates/evoxy-adapter/src/classify.rs:44 | Scrolling is a cursor, of no index |
| `Paths.OtherwiseUnknown` | crates/evoxy-adapter/src/classify.rs:56-71 | A name that is no operation behind an index is unknown |
| `Paths.IndexAlone` | crates/evoxy-adapter/src/classify.rs:50-53 | So is an index alone |
| `Requests.RequestRead` | crates/evoxy-filter/src/observe.rs:286-310 | A request is read from the first header of each name, in any case |
| `Requests.ClientRead` | crates/evoxy-filter/src/observe.rs:286-310 | A client the certificate header vouches for is presented, under its first URI or else its subject, whatever the rest of the chain says |
| `Requests.StrangerRead` | crates/evoxy-filter/src/observe.rs:286-310 | Without that header the client is not presented, and anonymous |
| `Requests.ClientIsTenant` | crates/evoxy-filter/src/reference.rs:319-335 | Keyed by the principal, the tenant is that client's name, whatever the other headers say |
| `Requests.CertificateAskedIff` | crates/evoxy-filter/src/lib.rs:168-183 | With certificates required a request is answered 403 exactly when it writes and presents none |
| `Requests.AsyncAskedIff` | crates/evoxy-filter/src/asyncwrite.rs:32-38 | The asynchronous mode is asked for exactly when some header of its name says `async`, both in any case |
| `Requests.MgetReadIff` | crates/evoxy-route/src/demux.rs:23-41 | A multi-get names these documents exactly when its `docs` do or, without a list of them, its bare `ids` |
| `Requests.SpellingsAlike` | crates/evoxy-route/src/demux.rs:23-41 | So both spellings are forwarded alike |
| `Requests.IdTextIff` | crates/evoxy-route/src/transform.rs:64-67 | An id is a string, or a number or truth value as it is printed |
| `Spelled.BulkRead` | crates/evoxy-route/src/bulk.rs:20-30 | Every well-spelled bulk body is read as its actions in order: verb, id where named, source |
| `Spelled.MsearchRead` | crates/evoxy-route/src/demux.rs:45-50 | Every multi-search body is read as its headers and queries in turn |
| `Route.DocPathRead` | crates/evoxy-route/src/lib.rs:464-472 | The built path classifies to the physical index and one id segment; decoding gives back the exact id and routing; only an empty id leaves no segment |
| `Route.BuildDocPath` | crates/evoxy-route/src/lib.rs:464-472 | The path grown piece by piece is that path, and in a plain index names the document to the server whatever characters its id and routing hold |
| `Authority.AuthorityIs` | crates/evoxy-route/src/lib.rs:111-138 | The authority of a URL is its host with the explicit port, else the scheme's default; path, query and fragment go, and a bracketed literal's colons are no port |
| `Authority.BareAuthorityIs` | crates/evoxy-route/src/lib.rs:111-138 | An endpoint without a scheme keeps its host and port as they stand |
| `Authority.NoAuthorityIff` | crates/evoxy-route/src/lib.rs:111-120 | There is no authority exactly when nothing stands between the scheme, if any, and path, query or end |
| `Route.IndexReadIff` | crates/evoxy-adapter/src/classify.rs:28-53 | An index name is read back from the path exactly when it is one plain, non-administrative segment |
| `Route.OneAddress` | crates/evoxy-route/src/transform.rs:64-76 | Single write, get, delete, multi-get and bulk send one tenant's logical id to one index, physical id and routing |
| `Route.OneAddressWithoutRule` | crates/evoxy-route/src/lib.rs:423-425 | Without an id rule the client's own id is the address: write, get and delete use one path, and multi-get and bulk the same id |
| `Route.BulkItemIsSinglePost` | crates/evoxy-route/src/bulk.rs:28-60 | A bulk index item without an explicit id is the single POST of its source, or the same refusal |
| `Route.EscapedPathIdIff` | crates/evoxy-route/src/read.rs:19-36 | A by-id request with an escaped id addresses the document of the plain id exactly when nothing needed escaping |
| `Route.CreateAndUpdateReplace` | crates/evoxy-adapter/src/classify.rs:56-79 | A `_create` or `_update` on one document is taken as the full write |
| `Bulk.RewriteBulkLoop` | crates/evoxy-route/src/bulk.rs:20-60 | The loop over items computes the item-by-item rewrite |
| `Bulk.WriteActionLine` | crates/evoxy-route/src/bulk.rs:63-85 | One action line is appended |
| `Bulk.RewrittenBulkRead` | crates/evoxy-route/src/bulk.rs:20-85 | The rewritten body parses to one entry per item, in order, same verb, physical id and index, transformed source: two lines an item, one for a delete |
| `Bulk.RewrittenBulkItems` | crates/evoxy-route/src/bulk.rs:20-60 | It also reads back through the bulk parser item by item |
| `Bulk.BulkIsAllOrNothing` | crates/evoxy-route/src/lib.rs:265-283 | A bulk body is forwarded exactly when it parses and every item rewrites |
| `Demux.RewriteMgetLoop` | crates/evoxy-route/src/demux.rs:23-41 | The loop over ids computes the multi-get rewrite |
| `Demux.RewrittenMgetRead` | crates/evoxy-route/src/demux.rs:23-41 | The rewritten body names every document, in order, at its physical index, id and routing |
| `Demux.RewriteMsearchLoop` | crates/evoxy-route/src/demux.rs:45-66 | The loop over searches computes the multi-search rewrite |
| `Demux.RewrittenMsearchRead` | crates/evoxy-route/src/demux.rs:45-66 | The rewritten body has the same number of searches in order, every header pinned, every query wrapped |
| `Transform.ApplyOneLine` | crates/evoxy-route/src/transform.rs:30-61 | A transformed body stays one line whenever the source was |
| `Transform.ResolvedIff` | crates/evoxy-route/src/transform.rs:84-101 | Injected values are the constants and the partition, and resolve exactly when none is to come from the request |
| `Transform.FilteredByIff` | crates/evoxy-route/src/read.rs:43-58 | A read is filtered by a term exactly for every injected field that carries the partition |
| `Rewrite.UnmapMapped` | crates/evoxy-route/src/response.rs:99-117 | Unmapping inverts mapping for every reversible template |
| `Rewrite.ConstructIsMap` | crates/evoxy-route/src/transform.rs:64-67 | The id built from a body is the map of its id field's text |
| `Rewrite.StripAdded` | crates/evoxy-route/src/transform.rs:58-61 | Stripping the injected names gives back the client's fields in order |
| `Response.HitInverse` | crates/evoxy-route/src/response.rs:99-117 | Shaping a hit on a stored document gives its logical id and the client's source, all else untouched |
| `Response.HitsInverse` | crates/evoxy-route/src/response.rs:86-97 | For every list of stored documents: same length, same order, each the client's own |
| `Response.SiblingsKept` | crates/evoxy-route/src/response.rs:99-117 | Fields beside index, id and source are what the upstream said |
| `Response.ResultInverse` | crates/evoxy-route/src/response.rs:146-168 | Shaping any bulk result on a stored document, error or not, names the client's index and id and keeps the rest in place |
| `Response.ClientResultFields` | crates/evoxy-route/src/response.rs:146-168 | Every other field of a result is what the upstream said; an index is named only where one was |
| `Response.ItemsInverse` | crates/evoxy-route/src/response.rs:126-143 | The same for every list of items, each under its verb |
| `Response.GetInverse` | crates/evoxy-route/src/response.rs:49-66 | Shaping any answer to a get, found or not, names the client's index and id, strips the injected fields and keeps the rest |
| `Shapes.BulkAnswerShown` | crates/evoxy-route/src/response.rs:126-143 | The whole bulk answer, whatever its results and its other fields hold, for every router |
| `Shapes.MgetAnswerShown` | crates/evoxy-route/src/response.rs:176-193 | The whole multi-get answer likewise |
| `Shapes.GetAnswerShown` | crates/evoxy-route/src/response.rs:49-66 | The whole answer to a get likewise |
| `Shapes.SearchAnswerShown` | crates/evoxy-route/src/response.rs:72-117 | The whole search answer likewise: its hits, and nothing else, change |
| `Shapes.MsearchAnswerShown` | crates/evoxy-route/src/response.rs:199-213 | The whole multi-search answer: response by response, and those without hits are kept |
| `Shapes.WrittenComesBack` | crates/evoxy-route/src/response.rs:1-20 | For every router and every transform, the answer to a get of a written document shows the fields of the body the client wrote, in order, under its id |
| `Shapes.AppliedId` | crates/evoxy-route/src/transform.rs:64-67 | A constructed id is the physical id of the body's own id field |
| `Response.MgetAgreesWithGetIff` | crates/evoxy-route/src/response.rs:176-193 | Shaping a document as multi-get entry and as get agree exactly when its own id unmaps to the id asked for |
| `Response.ShapeHitsInPlace` | crates/evoxy-route/src/response.rs:86-97 | Changing hits in place, one after another, gives the shaped list |
| `Response.ShapeBulkResponse` | crates/evoxy-route/src/response.rs:126-143 | Changing bulk items in place gives the shaped answer |
| `Response.ShapeMgetResponse` | crates/evoxy-route/src/response.rs:176-193 | Changing fetched documents in place gives the shaped answer |
| `Response.ShapeMsearchResponse` | crates/evoxy-route/src/response.rs:199-213 | Changing every response's hits in place gives the shaped answer |
| `Json.ParsePrint` | crates/evoxy-route/src/response.rs:215-223 | Parsing what was printed gives the value back |
| `Json.ParseValid` | crates/evoxy-route/src/response.rs:215-218 | What parses is a value whose printing parses again |
| `Percent.EncodeText` | crates/evoxy-route/src/encode.rs:19-31 | The byte loop computes the escaping of the text |
| `Percent.DecodeEncode` | crates/evoxy-route/src/encode.rs:19-31 | Decoding inverts encoding on every text |
| `Percent.EncodeInjective` | crates/evoxy-route/src/encode.rs:19-31 | Different texts have different escapings |
| `Percent.EncodeShape` | crates/evoxy-route/src/encode.rs:19-31 | Only unreserved characters and escape triples come out (section 2.3 of RFC 3986) |
| `Percent.EncodeIdentityIff` | crates/evoxy-route/src/encode.rs:19-31 | A text is its own escaping exactly when every character is unreserved |
| `Percent.CharacterKeptIff` | crates/evoxy-route/src/encode.rs:19-31 | The characters left alone are the ASCII letters and digits and four marks (section 2.3 of RFC 3986) |
| `Filter.Handle` | crates/evoxy-filter/src/lib.rs:153-198 | Handling issues exactly the specified effects and returns the decision they mean |
| `Filter.ApplyHeaderOps` | crates/evoxy-filter/src/lib.rs:364-376 | The loop issues one effect per header operation, in order |
| `Filter.HandledIs` | crates/evoxy-filter/src/lib.rs:153-198 | The effects leave exactly the prepared request, the bypassed request, or one reply; nothing of the client's line or body survives a prepared one |
| `Filter.DecisionTruthful` | crates/evoxy-filter/src/lib.rs:72-81 | The chain is stopped exactly when the client gets a reply |
| `Filter.PathTenancy` | crates/evoxy-filter/src/lib.rs:139-146 | A tenant-prefixed request with path partitioning comes to the same request or reply, bypass included, as the bare one with the tenant in a header |
| `Filter.NoTenantSegment` | crates/evoxy-filter/src/lib.rs:139-146 | Without a leading segment and a rest, path partitioning changes nothing |
| `Filter.SplitLeadingIff` | crates/evoxy-filter/src/lib.rs:324-339 | A rooted path splits into tenant and rest exactly when it is a plain segment before a rooted rest |
| `Filter.PathTenantReadIff` | crates/evoxy-filter/src/lib.rs:139-146 | The path's tenant is the one read exactly when the client sends no such header, or the same value |
| `Common.EqIgnoreCaseIff` | crates/evoxy-filter/src/observe.rs:286-296 | Names are equal exactly when they are letter by letter up to ASCII case |
| `Filter.RouteHeaders` | crates/evoxy-filter/src/lib.rs:209-251 | The header phase issues exactly the specified effects |
| `Filter.HeaderPhaseAgrees` | crates/evoxy-filter/src/lib.rs:209-251 | A forwarded request goes where the header phase said; an early reply is the later one unless a certificate is missing |
| `Prefixed.PrefixedWriteIff` | crates/evoxy-filter/src/lib.rs:271-274 | Write detection on a tenant-prefixed path: exactly which segment behind which tenant reads as a write |
| `Prefixed.PrefixedShapedIff` | crates/evoxy-filter/src/lib.rs:258-265 | Response shaping on a tenant-prefixed path: exactly when a response is shaped |
| `Prefixed.PrefixedExplainedIff` | crates/evoxy-filter/src/lib.rs:296-301 | Explain on a tenant-prefixed path: exactly when it reports an unsupported endpoint |
| `AsyncWrite.Write` | crates/evoxy-filter/src/asyncwrite.rs:66-101 | Reply and log after one attempt, for every sink and every acknowledgement |
| `AsyncWrite.HonestReply` | crates/evoxy-filter/src/asyncwrite.rs:66-101 | 202 exactly when a write that would be forwarded was acknowledged; any other reply leaves the log; refusals are those of the synchronous path |
| `AsyncWrite.RefusalsAreErrors` | crates/evoxy-route/src/lib.rs:548-596 | Every refusal the brain can give has an error status |
| `AsyncWrite.RecordIsForwardedIff` | crates/evoxy-filter/src/asyncwrite.rs:136-162 | The record has the synchronous path, and the synchronous body exactly when the request does not bypass tenancy or had no body |
| `AsyncWrite.PrefixedRefusedIff` | crates/evoxy-filter/src/asyncwrite.rs:71-74 | A tenant-prefixed asynchronous request is refused as a read exactly when its path, tenant in the index's place, reads as no write |
| `AsyncWrite.RunIsHonest` | crates/evoxy-filter/src/asyncwrite.rs:66-101 | Over every run without bypassed indices the log is, in order, what the 202-answered requests would have forwarded |
| `Records.RecordsEqualIff` | crates/evoxy-filter/src/asyncwrite.rs:136-162 | Two forwarded requests leave one record exactly when they are forwarded to one path with one body, where a bypassed request has none |
| `Records.BypassedRecordsIff` | crates/evoxy-filter/src/asyncwrite.rs:136-162 | Two bypassed requests leave one record exactly when their paths are the same |
| `Records.PutAndDeleteRecordAlike` | crates/evoxy-filter/src/asyncwrite.rs:149-152 | So a bypassed put and delete of one document are one record |
| `Records.DedicatedRecordsCoincide` | crates/evoxy-filter/src/asyncwrite.rs:136-162 | With dedicated clusters two tenants' forwarded writes, or deletes, of one document with one body leave one record |
| `Records.SharedRecordsDiffer` | crates/evoxy-filter/src/asyncwrite.rs:136-162 | In the shared index two tenants' single writes never leave one record |
| `Records.SharedDeleteRecordsIff` | crates/evoxy-filter/src/asyncwrite.rs:136-162 | In the shared index two deletes leave one record exactly when they go to one stored document and, with routing, are of one tenant |
| `Recorders.ExtProcActions.Finish` | crates/evoxy-extproc/src/actions.rs:62-115 | The header lists and body mutation the recorder ends in |
| `Recorders.SdkActions.Apply` | crates/evoxy-module-sdk/src/sdk.rs:352-399 | The state of Envoy's handle after committing the recorder |
| `Recorders.BackendsAgreeIff` | crates/evoxy-extproc/src/actions.rs:62-115 | For every sequence of effects with disjoint header names, both backends send the same request up to content-length or the same reply, except when only the query is taken off the client's path |
| `Recorders.ModuleSendsOutcome` | crates/evoxy-module-sdk/src/sdk.rs:352-399 | The module sends the line, body, cluster, host and header edits the effects amount to, and every other header as it was |
| `Recorders.ExtProcSendsIff` | crates/evoxy-extproc/src/actions.rs:62-115 | So does ext_proc, except exactly when all the outcome does to the client's path is to take its query off |
| `Recorders.LengthStaysHonest` | crates/evoxy-extproc/src/actions.rs:90-94 | Neither backend leaves a stale content-length |
| `Observe.Observe.ApplyQuery` | crates/evoxy-filter/src/observe.rs:106-117 | The switch takes the last recognised value of the query, and every recognised one is counted |
| `Observe.SwitchHoldsLast` | crates/evoxy-filter/src/observe.rs:264-282 | After every run the switch holds the last recognised value of an authorized admin request, or its initial value |
| `Observe.ConstantTimeEq` | crates/evoxy-filter/src/observe.rs:364-373 | The byte loop tells equality |
| `Observe.CheckToken` | crates/evoxy-filter/src/observe.rs:264-268 | A request is authorized exactly when it bears the configured token |
| `Observe.PresentableIff` | crates/evoxy-filter/src/observe.rs:340-349 | A configured token can be presented exactly when trimming leaves it alone |
| `Observe.ForbiddenIff` | crates/evoxy-filter/src/observe.rs:264-273 | A reserved request is forbidden exactly on the admin path without the token, and then changes nothing |
| `ExtProc.ProcessMessage` | crates/evoxy-extproc/src/lib.rs:77-155 | One message does exactly the specified step on surface, stream and log |
| `Processed.StepAnswers` | crates/evoxy-extproc/src/lib.rs:77-155 | The answer to a message that completes a request is that of the request with its stream's headers and its own body: synchronously Envoy sends or replies what handling decides, but for a query that stays; asynchronously the reply and the records are those of what handling forwards |
| `Processed.EveryRequestAnswered` | crates/evoxy-extproc/src/lib.rs:53-67 | The same for every request of every run of interleaved streams |
| `Processed.LogIsAccepted` | crates/evoxy-extproc/src/lib.rs:294-309 | Over every run the log is, in order, the path and body that handling forwards of each request answered 202 |
| `Processed.SentToConfigured` | crates/evoxy-extproc/src/lib.rs:242-271 | From configuration to wire: what Envoy sends for a tenant names the tenant's configured cluster, or the default one, in its routing header |
| `Introspected.HeadersPassed` | crates/evoxy-extproc/src/lib.rs:77-155 | Headers with a body to come are passed on unchanged |
| `Introspected.MetricsAnswered` | crates/evoxy-filter/src/observe.rs:227-232 | The metrics path, with any query, is answered with both counters and their sum |
| `Introspected.ExplainAnswered` | crates/evoxy-filter/src/observe.rs:236-242 | The explain prefix is answered with what the brain would do with the path behind it |
| `Introspected.AdminAnswered` | crates/evoxy-filter/src/observe.rs:264-282 | The admin path is answered with the directives as the query leaves them when the configured token is borne, else 403 and nothing changes |
| `Introspected.PlaceIff` | crates/evoxy-filter/src/observe.rs:220-245 | No other path is answered here |
| `Introspected.BearsIff` | crates/evoxy-filter/src/observe.rs:340-349 | A token is borne exactly behind `bearer`, in any case, and a space, in the first authorization header, trimmed |
| `Introspected.SettingIff` | crates/evoxy-filter/src/observe.rs:106-117 | A query part sets the switch exactly in the four spellings |
| `Introspected.DecisionAnsweredIff` | crates/evoxy-filter/src/observe.rs:249-258 | A response shows a decision exactly when the switch is on and the stream's request resolves to it |
| `ExtProc.EveryAnswerMatches` | crates/evoxy-extproc/src/lib.rs:77-155 | Over every run every reply ends its stream or belongs to its message's phase, and every body over the cap is answered 413 |
| `ExtProc.CountedOnce` | crates/evoxy-extproc/src/lib.rs:242-309 | A completed request is counted once, as routed exactly when Envoy goes on or the write was accepted; a record is produced exactly for a 202 |
| `ExtProc.EachRequestCountedOnce` | crates/evoxy-extproc/src/lib.rs:77-155 | For every interleaving of legal streams, routed plus rejected is the number of completed, non-reserved requests |
| `ExtProc.CountersGrow` | crates/evoxy-filter/src/observe.rs:52-71 | Later metric snapshots are never below earlier ones |
| `ExtProc.LogMatchesAccepted` | crates/evoxy-extproc/src/lib.rs:294-309 | Over every run the log holds one record for each 202 |
| `ExtProc.AnswerIsOwn` | crates/evoxy-extproc/src/lib.rs:53-67 | The answer to a data message depends on its own stream's messages only |
| `ExtProc.AnswerCarriesIff` | crates/evoxy-extproc/src/lib.rs:242-271 | What Envoy sends after the answer is what handling decided, except exactly in that case |
| `ExtProc.DefaultSearchKeepsQuery` | crates/evoxy-extproc/src/lib.rs:254 | With a dedicated cluster for each tenant, the default, every search with a query string is that case |
| `ExtProc.ReferenceDisjoint` | crates/evoxy-filter/src/reference.rs:364-381 | Under the reference tenancy no header is both set and removed |
| `ExtProc.ShapingNeedsNoBody` | crates/evoxy-extproc/src/lib.rs:137-141 | The response phase, which has no request body, shapes as the whole request would |
| `ExtProc.ModuleDiffersIff` | crates/evoxy-module-sdk/src/sdk.rs:315-331 | Under a tenancy that ignores the principal the module, which builds requests without identity, handles a request differently exactly when certificates are required and it is a write of a client that presented one |
| `ExtProc.ModuleClientsShare` | crates/evoxy-module-sdk/src/sdk.rs:329 | Under a tenancy keyed by the principal all clients of the module are in one partition |
| `ExtProc.PrincipalNeverUnresolved` | crates/evoxy-filter/src/reference.rs:319-335 | A tenancy keyed by the principal never fails closed: a client without a name gets the anonymous partition |
| `ExtProc.PrincipalPartitionIff` | crates/evoxy-module-sdk/src/sdk.rs:329 | The two backends find the same partition exactly when the client has no name or the anonymous one |
| `Xfcc.SplitTopLevel` | crates/evoxy-abi/src/xfcc.rs:60-79 | The scanning loop computes the top-level pieces |
| `Xfcc.SplitIff` | crates/evoxy-abi/src/xfcc.rs:58-79 | The pieces are the one list that rejoins to the input with every cut outside quotes and escapes |
| `Xfcc.Unquote` | crates/evoxy-abi/src/xfcc.rs:83-101 | The loop computes the unescaped inner text |
| `Xfcc.UnquoteBareIff` | crates/evoxy-abi/src/xfcc.rs:81-82 | A bare value is returned as it is exactly when it holds no backslash |
| `Xfcc.FromXfcc` | crates/evoxy-abi/src/xfcc.rs:27-55 | The loop over pairs computes the identity |
| `Xfcc.OnlyPeerRead` | crates/evoxy-abi/src/xfcc.rs:31-33 | Only the first chain element counts |
| `Xfcc.ParsePrinted` | crates/evoxy-abi/src/xfcc.rs:27-101 | Every list of quoted, escaped pairs reads back as its last subject and its non-empty URIs in order, whatever follows in the chain |
| `Xfcc.IdentityRoundTrip` | crates/evoxy-abi/src/xfcc.rs:27-101 | Every subject and list of non-empty URIs comes back |
| `Certificates.WrittenRead` | crates/evoxy-abi/src/xfcc.rs:27-101 | Every header whose first element is pairs of known or unknown keys in any case, values quoted or bare, blanks around, reads as its last subject and non-empty URIs in order, whatever chain follows |
| `Bridge.Handle` | examples/capture-bridge/src/main.rs:47-97 | The two read loops end and forward the path of the head before the stream's first blank line, and the body up to the first read that reaches the declared length |
| `Bridge.FindPrefix` | examples/capture-bridge/src/main.rs:99-103 | More bytes never move a marker that was found |
| `Bridge.ChunkingIndependent` | examples/capture-bridge/src/main.rs:76-84 | A complete stream gives the same exact body however it is cut |
| `Bridge.ExactBodyIff` | examples/capture-bridge/src/main.rs:76-84 | With more bytes behind it, the body is exact if and only if some read ends where the request ends |
| `Bridge.RequestRoundTrip` | examples/capture-bridge/src/main.rs:47-97 | Every printed request comes out with its path and body, however it is cut (message framing of section 6.2 of RFC 9112) |
| `Bridge.LengthLineIff` | examples/capture-bridge/src/main.rs:69-78 | A header line declares a length exactly when its name is this one in any case and its trimmed value is a 64-bit number |
| `Bridge.FirstLengthCounts` | examples/capture-bridge/src/main.rs:69-78 | The first line that declares a length counts; without one it is zero |
| `Bench.PercentileIff` | crates/evoxy-bench/src/lib.rs:85-89 | The nearest-rank value is the one sample with at least p percent at or below it and fewer than p percent below |
| `Bench.SummarySound` | crates/evoxy-bench/src/lib.rs:49-69 | The count is the number of samples; reported percentiles are percentiles, in order between least and greatest sample; the mean is the exact average rounded down |
| `Bench.OrderIndependent` | crates/evoxy-bench/src/lib.rs:49-69 | The order of the samples does not matter |
| `Bench.RankExactIff` | crates/evoxy-bench/src/lib.rs:85-89 | The rank is the ceiling of p percent exactly when the product fits 64 bits |

## Left out

- The inside of the routing engine's `TenancyRouter`, epoch comparison and moving migrations; the reference tenancy's phase is fixed and its epoch unused.
- Partial updates in the store theorem: a bulk request with an `update` item is outside `Runs`, and is kept in the rewrite theorems of `Bulk`.
- A get without an id, and delete-by-query and cursors (refused with 501), are outside the run theorem.
- Answers to single writes and deletes: the code does not shape them, so the run theorem says only that they were accepted.
- Engine metadata such as versions and timings is constant; aggregations, paging and the computing of scores and highlights are not modelled; a `term` is an exact match on one top-level field.
- Queries that mention the isolation field, `_id` or `_index` are outside `Search.SearchRefines`; `Search.SearchIsolated` covers every query.
- EndToEnd.BrainRunRefines: a bypassed request is covered when the model reads what it asks (single writes, gets and deletes under `_doc` with an id, multi-gets, bulk requests that name their ids) and no key of the shared index is asked (`BypassReach.BypassReadsShared` shows what happens otherwise).
- Runs.RunRefines: a request for one document whose physical id would be empty is outside it, because the path then names none (`Wire.ForwardReadsIff`).
- Searches.BrainSearch: speaks of searches whose tenant is not taken from the path and whose answer lists all matches; a page of them is not modelled.
- DedicatedRuns.AloneInEveryRun: asks for plain index names with dedicated indices, because without them tenants do meet (`Dedicated.SlashTenantsCollide`), and leaves searches to `DedicatedSearches.SearchesAlone`.
- Dedicated.TenantsTouchApart: asks for plain index names of single writes, because without them tenants do meet (`Dedicated.SlashTenantsCollide`).
- Id templates that read more than one body field, nested field names, and the missing-partition check of the id rule.
- serde_json's sorting of object keys, number normalisation and recursion limit.
- The HTTP headers of local replies, the texts of explain, decision shape, metrics and operation id, and trace ids.
- The module's own stream hooks, and the content-length removal and header encoding of ext_proc's response phases: `ExtProc` keeps which decision and which body they carry.
- Counters are unbounded where the code's are 64-bit.
- gRPC, tokio, Envoy's SDK types, channel capacity and all I/O: only message and effect semantics are kept. Which broker acknowledgements come is a parameter.
- Byte decoding of a mirrored request's head that is not ASCII; its bytes are characters here.
- The standard library's sorting algorithm: `Bench` sorts by insertion and shows that every sort gives the same list.
- Configuration parsing, verdict thresholds and floating-point ratios of the benchmark, the docs site and the container set-ups.
