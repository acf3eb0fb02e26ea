# Okta group entity provider — a Dafny model

This project models the synchronisation pass of the Okta catalog module's
`OktaGroupEntityProvider`. One `run` lists Okta groups. If a filter list is
configured, it sends one query per configured group name; otherwise it sends
one unconstrained query. For every delivered group it drains the group's
members. It names the group and each member with the configured naming
strategies, builds one catalog `Group` entity per group, and hands the catalog
one `full` mutation whose every entry carries the location key
`okta-group-<orgUrl>`. A provider without a connection throws
`Not initialized` before it sends any query.

The asynchronous, paginated Okta client becomes a pure function from query
parameters to a `Paged` collection. That collection holds the records in
delivery order and, when pagination broke off, the error that ended it. Each
group record carries the `Paged` collection its `listUsers()` delivers. The
two naming strategies are function-valued fields of the provider, and the
default annotations are an optional map parameter.

Files:

- `wrappers.dfy`: `Option` and `Result`.
- `okta_client.dfy`: the client's records, query parameters and paged collections.
- `catalog_model.dfy`: the catalog's Group entity, deferred entity and mutation.
- `okta_group_entity_provider.dfy`: the provider and its operations.
- `okta_group_provider_properties.dfy`: what a run does, compared with a reference.
  The reference is the configured queries and the concatenation of the groups
  the client delivers for them.
- `okta_group_provider_cases.dfy`: the configurations the provider tells apart,
  and the scenarios of its test suite.
- `okta_group_provider_loop.dfy`: the run written with explicit loops, as the
  source writes it, proved equal to the functional `Run`.

Three behaviours of the code are easy to misread; the model follows the code:

- An empty-string filter name is falsy in `group ? { q: group } : {}`. Its query
  is unconstrained, so it lists every group.
- An empty filter list is truthy, so it sends no query at all and the mutation
  is empty.
- Entity annotations are a copy of the default annotations only. When there
  are no default annotations the copy is `{}`.

`GroupEntityOf` is the entity literal built for one group. `ToEntity` applies
it to a group's named members, which is what the per-group callback does.
`ListingError` is the error a listing that did not finish propagates: the
first failing member listing's error, in delivery order, or otherwise the
group collection's own error. These three helpers carry no contract of their
own. `RunEntityFields` pins every field of the entity they build, and
`ListGroups`, `ListEachFailure` and `RunFailure` state which error comes out.

Running twice against the same client gives identical results, entity order
included. This holds by construction, because `Run` is a function.

## Model

| member | source | states |
|---|---|---|
| OktaGroupEntityProvider.NewProvider | plugins/backend/catalog-backend-module-okta/src/providers/OktaGroupEntityProvider.ts:56-71 | the constructor stores the org URL, both naming strategies and the optional filter list, and leaves the provider without a connection |
| OktaGroupEntityProvider.ProviderName | plugins/backend/catalog-backend-module-okta/src/providers/OktaGroupEntityProvider.ts:73-75 | the provider name is the prefix `okta-group-` followed by exactly the org URL |
| OktaGroupEntityProvider.QueryFor | plugins/backend/catalog-backend-module-okta/src/providers/OktaGroupEntityProvider.ts:115 | a query is constrained exactly when the filter name is present and non-empty, and then it is constrained to that name |
| OktaGroupEntityProvider.MemberNames | plugins/backend/catalog-backend-module-okta/src/providers/OktaGroupEntityProvider.ts:118-122 | the member list has one entry per delivered user, in delivery order, each the user naming strategy's name for that user |
| OktaGroupEntityProvider.AnnotationsCopy | plugins/backend/catalog-backend-module-okta/src/providers/OktaGroupEntityProvider.ts:127-129 | the annotations have the same keys and values as the defaults, and are empty when there are no defaults |
| OktaGroupEntityProvider.FirstMembersFailure | plugins/backend/catalog-backend-module-okta/src/providers/OktaGroupEntityProvider.ts:117-122 | there is no member failure exactly when every delivered group's member listing completes |
| OktaGroupEntityProvider.FirstMembersFailureSnoc | plugins/backend/catalog-backend-module-okta/src/providers/OktaGroupEntityProvider.ts:117-122 | a later group's member failure is reported only when no earlier group's member listing failed |
| OktaGroupEntityProvider.CollectGroups | plugins/backend/catalog-backend-module-okta/src/providers/OktaGroupEntityProvider.ts:117-142 | draining the groups succeeds exactly when every member listing completes; it then gives one entity per group in order; otherwise it fails with the error of the first failing member listing, in delivery order |
| OktaGroupEntityProvider.ListGroups | plugins/backend/catalog-backend-module-okta/src/providers/OktaGroupEntityProvider.ts:109-143 | one listing succeeds exactly when neither the group collection nor any member collection fails, and then yields one entity per delivered group in delivery order; on failure it propagates, unchanged, the first failing member listing's error, or else the group collection's own error |
| OktaGroupEntityProvider.ListEach | plugins/backend/catalog-backend-module-okta/src/providers/OktaGroupEntityProvider.ts:92-94 | the filter loop sends at most one query per name, and its failures are fetch errors |
| OktaGroupEntityProvider.ListConfigured | plugins/backend/catalog-backend-module-okta/src/providers/OktaGroupEntityProvider.ts:91-98 | without a filter list exactly one unconstrained query is sent; failures are fetch errors |
| OktaGroupEntityProvider.WithLocationKey | plugins/backend/catalog-backend-module-okta/src/providers/OktaGroupEntityProvider.ts:102-105 | every entity becomes one entry, in order, carrying the given location key |
| OktaGroupEntityProvider.Run | plugins/backend/catalog-backend-module-okta/src/providers/OktaGroupEntityProvider.ts:77-107 | the run fails with `Not initialized` exactly when there is no connection, and then sends no query; a successful run yields a `full` mutation whose every entry has the provider name as location key |
| OktaGroupProviderProperties.DeliveredCountIsLength | plugins/backend/catalog-backend-module-okta/src/providers/OktaGroupEntityProvider.ts:117-141 | the concatenated delivery has as many groups as all queries return together |
| OktaGroupProviderProperties.ListEachSucceedsIffDrained | plugins/backend/catalog-backend-module-okta/src/providers/OktaGroupEntityProvider.ts:92-94 | the filter loop succeeds exactly when no listing of a configured name fails |
| OktaGroupProviderProperties.ListEachSuccess | plugins/backend/catalog-backend-module-okta/src/providers/OktaGroupEntityProvider.ts:92-94 | a successful filter loop has sent one query per name in list order, and has one entity per delivered group in query order and then delivery order |
| OktaGroupProviderProperties.ListEachFailure | plugins/backend/catalog-backend-module-okta/src/providers/OktaGroupEntityProvider.ts:92-94 | a failed filter loop has sent the queries up to and including the first failing one, and no later query, and propagates that listing's error unchanged |
| OktaGroupProviderProperties.RunSucceedsIffDrained | plugins/backend/catalog-backend-module-okta/src/providers/OktaGroupEntityProvider.ts:89-106 | a connected run succeeds exactly when no listing of the configured queries fails |
| OktaGroupProviderProperties.RunSuccess | plugins/backend/catalog-backend-module-okta/src/providers/OktaGroupEntityProvider.ts:89-106 | a successful run sent exactly the configured queries, and its mutation has one entry per delivered group, in order, with nothing deduplicated |
| OktaGroupProviderProperties.RunFailure | plugins/backend/catalog-backend-module-okta/src/providers/OktaGroupEntityProvider.ts:91-98 | a connected run that fails does so with a fetch error: the error of the first query whose listing failed, unchanged, and it stops right after that query |
| OktaGroupProviderProperties.RunEntityFields | plugins/backend/catalog-backend-module-okta/src/providers/OktaGroupEntityProvider.ts:123-139 | each emitted entity has kind `Group` and apiVersion `backstage.io/v1alpha1`; its name comes from the group naming strategy; title and description come from the profile; its annotations are a copy of the defaults; its type is `group`, its children are empty, and its members are the named users in order |
| OktaGroupProviderCases.NewProviderNotInitialized | plugins/backend/catalog-backend-module-okta/src/providers/OktaGroupEntityProvider.ts:78-80 | running a freshly constructed provider throws `Not initialized` and sends no query |
| OktaGroupProviderCases.ProviderNameInjective | plugins/backend/catalog-backend-module-okta/src/providers/OktaGroupEntityProvider.ts:73-75 | two providers share a location key exactly when they share an org URL |
| OktaGroupProviderCases.EmptyFilterListQueriesNothing | plugins/backend/catalog-backend-module-okta/src/providers/OktaGroupEntityProvider.ts:91 | an empty filter list sends no query and yields an empty full mutation |
| OktaGroupProviderCases.NoFilterQueriesOnceUnconstrained | plugins/backend/catalog-backend-module-okta/src/providers/OktaGroupEntityProvider.ts:96-98 | without a filter list exactly one query with no parameters is sent |
| OktaGroupProviderCases.EmptyFilterNameIsUnconstrained | plugins/backend/catalog-backend-module-okta/src/providers/OktaGroupEntityProvider.ts:115 | the filter `[""]` sends one unconstrained query, and a successful run emits, in order, the entity of every group that query lists |
| OktaGroupProviderCases.SingleFilterQueriesThatName | plugins/backend/catalog-backend-module-okta/src/providers/OktaGroupEntityProvider.test.ts:72-76 | a single non-empty filter name sends only the query `q = name`, and emits entities only for the groups that query returns |
| OktaGroupProviderCases.SingleFilterSucceeds | plugins/backend/catalog-backend-module-okta/src/providers/OktaGroupEntityProvider.ts:91-95 | with one filter name, empty or not, the run succeeds when the listing of that name's query does not fail |
| OktaGroupProviderCases.RepeatedFilterNameDuplicatesEntities | plugins/backend/catalog-backend-module-okta/src/providers/OktaGroupEntityProvider.ts:92-94 | a filter name listed twice emits the entities of its groups twice: the first half and the second half are each that query's groups, in order |
| OktaGroupProviderCases.DeliveredTwice | plugins/backend/catalog-backend-module-okta/src/providers/OktaGroupEntityProvider.ts:92-94 | the same query sent twice delivers its groups twice, back to back |
| OktaGroupProviderCases.MemberErrorPrecedesPageError | plugins/backend/catalog-backend-module-okta/src/providers/OktaGroupEntityProvider.ts:117-122 | a group's failing member listing is awaited before the next page of groups, so its error is propagated instead of a later page error |
| OktaGroupProviderCases.NoGroupsGiveEmptyMutation | plugins/backend/catalog-backend-module-okta/src/providers/OktaGroupEntityProvider.test.ts:45-61 | with no filter and no groups the run applies `{ type: full, entities: [] }` |
| OktaGroupProviderCases.SingleMemberEntity | plugins/backend/catalog-backend-module-okta/src/providers/OktaGroupEntityProvider.test.ts:78-96 | the test suite's group with its one member becomes the expected entry, given the names the strategies produce |
| OktaGroupProviderCases.OneGroupRun | plugins/backend/catalog-backend-module-okta/src/providers/OktaGroupEntityProvider.test.ts:107-122 | a successful run that sent one query and emitted the test group's entity applies exactly the expected single entry |
| OktaGroupProviderCases.FilterScenario | plugins/backend/catalog-backend-module-okta/src/providers/OktaGroupEntityProvider.test.ts:64-123 | the filter `["group1"]` sends only `q = group1` and emits the one returned group, named `group1`, with members `["asdfwefwefwef"]` |
| OktaGroupProviderCases.SingleGroupScenario | plugins/backend/catalog-backend-module-okta/src/providers/OktaGroupEntityProvider.test.ts:126-203 | the unfiltered run over one group with one member emits exactly that group, with whatever names the strategies give, e.g. `everyone-the-company` and `["fname"]` |
| OktaGroupProviderLoop.CollectGroupsStep | plugins/backend/catalog-backend-module-okta/src/providers/OktaGroupEntityProvider.ts:117-142 | one more delivered group either appends its entity or ends the drain with its member listing's error |
| OktaGroupProviderLoop.CollectGroupsStopsAtFailure | plugins/backend/catalog-backend-module-okta/src/providers/OktaGroupEntityProvider.ts:117-142 | once draining a prefix of the groups fails, later groups do not change the outcome |
| OktaGroupProviderLoop.ListEachStopsAtFailure | plugins/backend/catalog-backend-module-okta/src/providers/OktaGroupEntityProvider.ts:92-94 | once a listing fails, later filter names are neither queried nor able to change the outcome |
| OktaGroupProviderLoop.NameMembers | plugins/backend/catalog-backend-module-okta/src/providers/OktaGroupEntityProvider.ts:118-122 | the push loop yields one name per user, in order, each from the user naming strategy |
| OktaGroupProviderLoop.ListGroupsLoop | plugins/backend/catalog-backend-module-okta/src/providers/OktaGroupEntityProvider.ts:109-143 | the loop that drains one listing and pushes an entity per group computes exactly the functional listing |
| OktaGroupProviderLoop.ListEachStep | plugins/backend/catalog-backend-module-okta/src/providers/OktaGroupEntityProvider.ts:92-94 | one more filter name sends its query, then either extends the entities with its listing or ends the loop with its error |
| OktaGroupProviderLoop.ListEachLoop | plugins/backend/catalog-backend-module-okta/src/providers/OktaGroupEntityProvider.ts:92-94 | the `for` loop over the filter names sends the same queries and reaches the same outcome as the functional filter loop |
| OktaGroupProviderLoop.DeferLoop | plugins/backend/catalog-backend-module-okta/src/providers/OktaGroupEntityProvider.ts:102-105 | the mapping loop gives one entry per entity, in order, each carrying the location key |
| OktaGroupProviderLoop.RunLoop | plugins/backend/catalog-backend-module-okta/src/providers/OktaGroupEntityProvider.ts:77-107 | the loop version of `run` sends the same queries and produces the same outcome as the functional `Run` |

## Left out

- The zip scaffolder action (`plugins/scaffolder-actions/scaffolder-zip/src/zip.ts`): it only wraps an archive library and the filesystem, so it has no logic of its own to state.
- The naming strategy factories: their bodies are not part of this model. The resolved strategies are abstract function fields, and the test suite's expected names appear only as hypotheses.
- A naming strategy that throws: the resolved naming strategies are assumed not to throw. In the source, a throwing strategy inside the `.each` callbacks would reject the listing and abort the run.
- `fromConfig` and configuration errors: reading `orgUrl`, `token` and `groups` from configuration is library I/O. The filter list is the provider's `Option<seq<string>>` field.
- The base class `OktaEntityProvider` is not part of this model. `connect`, `getClient` and `buildDefaultAnnotations` come from it. The connection is an optional field, the client is a parameter, and the default annotations are an optional map parameter.
- Logging (`logger.info`): it is output only and does not affect the result.
- Failure of `applyMutation` itself: the sink is external. The model returns the mutation that would be applied.
- Asynchrony and pagination: each `.each` iteration becomes a finite sequence drained in delivery order. A fetch error becomes the collection's terminal failure.
- Concurrency between `run` calls: each call builds its own accumulator. `Run` models one call, and the order in which two calls' `applyMutation` land is not modelled.
- Changes to Okta data during a run: the client is a pure function, so the run sees one snapshot. The same query sent twice in one run returns the same groups.
- Uniqueness of entity names: the source does not enforce it, so the model does not either.
