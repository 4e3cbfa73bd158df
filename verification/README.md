# Panora CRM engagements, modelled in Dafny

This project models the engagement service of Panora's unified CRM API. It also models the Zoho engagement mapper.

The engagement service does four things:

- **addEngagement** validates a unified engagement:
  - the linked user must exist;
  - a non-empty `company_id` must name a company;
  - the upper-cased `type` must be non-empty and one of the accepted types.

  It then pushes the engagement to the provider and unifies the provider's answer. It finds or creates the `crm_engagements` row by remote identity `(remote_id, remote_platform, id_linked_user)`, writing only the truthy unified fields. It upserts the raw payload into `remote_data`, reads the row back with its custom `field_mappings`, and logs a `crm.engagement.push` event.
- **batchAddEngagements** runs addEngagement on every input, with the provider id lower-cased.
- **getEngagement** reads one row back.
- **getEngagements** lists the rows of a provider and a linked user, then logs a `crm.engagement.pulled` event.

The Zoho mapper's `unify` dispatches on single-versus-array input. Its per-object mapper and its `desunify` are stubs.

Modules:

- `Wrappers`: Option and Result.
- `Text`: ASCII `toUpperCase`/`toLowerCase`.
- `EngagementModel`: the records, the store and the sparse overlay of unified fields.
- `Queries`: first match and filter over a table in insertion order.
- `FieldMappings`: the JavaScript `Map` fold that builds `field_mappings`.
- `Reconciliation`: find-or-create by remote identity.
- `EngagementSpec`: each operation as a function from the store before to the result and the store after. It also holds the lemmas about those functions.
- `Service`: the class `EngagementService`, whose fields are the tables. Each of its methods is proved equal to its `EngagementSpec` function.
- `ZohoMappers`: the Zoho engagement mapper.
- `ZohoPush`: the engagement service with the Zoho mapper as its unify step.

Collaborators the service calls but does not define are parameters of the model. These are the provider adapter's `addEngagement`, `unify`, the uuid generator and the clock. They reach each call as a `CallEnv` and a unify function.

- The provider's answer is `None` when the provider call throws. The same `None`, and so the same `ProviderCallFailed` error, stands for a `desunify` or a `ServiceRegistry.getService` that throws, since all three run inside the same step before any write.
- The unify function returns `None` when unify yields no element. The service then throws on its first read of the unified object. The same `None`, and so the same `UnifiedNothing` error, stands for a `unify` that throws.

Two points of the code's behaviour are worth stating outright:

- `field_mappings` is an array of one-entry `{ [slug]: data }` objects, one per distinct slug, in first-insertion order. It is not a single object keyed by slug. It is modelled as a sequence of `Entry`.
- An existing row is looked up by remote id, platform and linked user. addEngagement uses the platform id exactly as it is given (engagement.service.ts:149, 207); only batchAddEngagements lower-cases it before the call (line 44). When the payload has no `id`, the lookup as written drops the remote-id condition. The add operation is modelled with the exact lookup instead (see Findings and Left out).

## Model

| member | source | states |
|---|---|---|
| EngagementModel.OverlayFieldwise | packages/api/src/crm/engagement/services/engagement.service.ts:156-185 | each field after the update is the unified value when that value is truthy, otherwise the stored value |
| EngagementModel.OverlayKnown | packages/api/src/crm/engagement/services/engagement.service.ts:156-185 | the truthy fields after the update are those stored before plus those of the unified object: nothing known is lost |
| EngagementModel.OverlayIdempotent | packages/api/src/crm/engagement/services/engagement.service.ts:156-185 | writing the same unified object twice gives the row it had after the first write |
| EngagementModel.FragmentsAccumulate | packages/api/src/crm/engagement/services/engagement.service.ts:156-185 | two unified objects with disjoint truthy fields can be written in either order, with the same row as a result, and both sets of fields survive |
| EngagementModel.Overlay | packages/api/src/crm/engagement/services/engagement.service.ts:156-185 | the data an update writes: each truthy unified field replaces the stored one, and every other stored field is kept. Its meaning is stated by OverlayFieldwise and OverlayKnown |
| Queries.FirstIndex | packages/api/src/crm/engagement/services/engagement.service.ts:146-152 | the index returned satisfies the filter and no earlier one does; none is returned only when no row satisfies it |
| Queries.Filter | packages/api/src/crm/engagement/services/engagement.service.ts:379-384 | the result holds exactly the elements that satisfy the filter, and is no longer than the input |
| Queries.FilterCounts | packages/api/src/crm/engagement/services/engagement.service.ts:379-384 | each element that satisfies the filter is kept as many times as it occurs, and no other element is kept |
| Queries.Positions | packages/api/src/crm/engagement/services/engagement.service.ts:379-384 | the indices of the matching elements: each one matches, they strictly increase, and every matching index is listed |
| Queries.FilterInOrder | packages/api/src/crm/engagement/services/engagement.service.ts:379-384 | findMany keeps table order: element k of the result is the element at the k-th matching index |
| Queries.FirstIndexAgrees | packages/api/src/crm/engagement/services/engagement.service.ts:146-152 | two filters that agree on every row find the same first row |
| FieldMappings.ValuesOf | packages/api/src/crm/engagement/services/engagement.service.ts:309-318 | the value rows returned are exactly those owned by the record |
| FieldMappings.ValuesOfExactly | packages/api/src/crm/engagement/services/engagement.service.ts:309-318 | the owner's value rows come back each as often as it occurs, none other, and in table order |
| FieldMappings.MapSet | packages/api/src/crm/engagement/services/engagement.service.ts:323 | `Map.set`: afterwards the slug maps to the data and every other slug maps to what it did before. A present slug keeps its position, a new one goes last, and slugs stay distinct |
| FieldMappings.CollectFieldMappings | packages/api/src/crm/engagement/services/engagement.service.ts:320-324 | the forEach loop builds the map that `FoldValues` defines over the value rows |
| FieldMappings.FoldValues | packages/api/src/crm/engagement/services/engagement.service.ts:320-329 | the field_mappings built from the value rows in order: it never lists a slug twice, and has at most one entry per row |
| FieldMappings.FoldValuesLastWins | packages/api/src/crm/engagement/services/engagement.service.ts:320-324 | looking a slug up in the map gives the data of the last value row with that slug |
| FieldMappings.LastDataPresent | packages/api/src/crm/engagement/services/engagement.service.ts:320-324 | a slug has data exactly when some value row carries it |
| FieldMappings.LookupFindsEntry | packages/api/src/crm/engagement/services/engagement.service.ts:327-329 | in a map with distinct slugs, each listed entry is what `get` returns for its slug |
| FieldMappings.LookupPresent | packages/api/src/crm/engagement/services/engagement.service.ts:327-329 | `get` finds a slug exactly when an entry lists it |
| FieldMappings.FieldMappingsMeaning | packages/api/src/crm/engagement/services/engagement.service.ts:320-329 | field_mappings lists each slug of the value rows once, with the data of its last row, and nothing else. It is empty exactly when there are no value rows |
| FieldMappings.FoldValuesKeepsFirstPositions | packages/api/src/crm/engagement/services/engagement.service.ts:320-329 | entries stay in first-insertion order: the map of any prefix of the rows is a prefix of the final map, slug for slug |
| Reconciliation.FindExisting | packages/api/src/crm/engagement/services/engagement.service.ts:146-152 | corrected lookup: a row is found only if its remote id, platform and linked user all equal the key; nothing is found exactly when no row has that key |
| Reconciliation.FindExistingAsWritten | packages/api/src/crm/engagement/services/engagement.service.ts:143-152 | lookup as written: an undefined remote id places no condition, so any row of the same platform and linked user matches |
| Reconciliation.MissingRemoteIdMatchesUnrelatedRecord | packages/api/src/crm/engagement/services/engagement.service.ts:143-152 | a payload without `id` makes the written lookup select a row with remote id "42", which the exact lookup does not |
| Reconciliation.AsWrittenAgreesWhenIdPresent | packages/api/src/crm/engagement/services/engagement.service.ts:143-152 | for a payload that carries an `id`, the lookup as written and the exact lookup find the same row, so the corrected model is the code for such payloads |
| Reconciliation.Reconcile | packages/api/src/crm/engagement/services/engagement.service.ts:146-244 | find-or-create: at most one row is added, and the returned owner id belongs to a row that carries the remote identity |
| Reconciliation.ReconcileFrame | packages/api/src/crm/engagement/services/engagement.service.ts:146-244 | rows with another remote identity are unchanged, at most one row is added, and it carries the key |
| Reconciliation.ReconcileUpdatesInPlace | packages/api/src/crm/engagement/services/engagement.service.ts:156-197 | an existing row keeps its id, identity and created_at. modified_at becomes now, the fields are overlaid, and the row count is unchanged |
| Reconciliation.ReconcileCreates | packages/api/src/crm/engagement/services/engagement.service.ts:198-244 | with no existing row, exactly one row is appended. It carries the fresh id and the key, with created_at = modified_at = now, and exactly the truthy unified fields |
| Reconciliation.ReconcileKeepsOneRowPerIdentity | packages/api/src/crm/engagement/services/engagement.service.ts:146-244 | ids and remote identities stay unique, the id set grows by the owner id only, and exactly the owner row carries the key |
| Reconciliation.ReconcileTwice | packages/api/src/crm/engagement/services/engagement.service.ts:146-244 | a second reconcile of the same identity adds no row, returns the same owner, and that row holds both overlays in order |
| EngagementSpec.Validate | packages/api/src/crm/engagement/services/engagement.service.ts:64-92 | each error holds exactly when its check is the first to fail: linked user, then company (only when `company_id` is non-empty), then empty type, then unknown type. On success it returns the upper-cased type, which is non-empty |
| EngagementSpec.TargetKind | packages/api/src/crm/engagement/services/engagement.service.ts:124-129 | CALL maps to a call, MEETING to a meeting, every other type to an email |
| EngagementSpec.PushStatus | packages/api/src/crm/engagement/services/engagement.service.ts:269 | the push event is a success exactly when the provider answered 201 |
| EngagementSpec.PushEvent | packages/api/src/crm/engagement/services/engagement.service.ts:271-283 | the events row of a push. What it holds (id, status by the 201 check, crm.engagement.push, POST, /crm/engagements, provider, direction "0", the call's time, linked user) is stated by AddAppendsOnePushEvent |
| EngagementSpec.PullEvent | packages/api/src/crm/engagement/services/engagement.service.ts:450-462 | the events row of a pull. What it holds (id, success, crm.engagement.pulled, GET, /crm/engagements, provider, direction "0", the call's time, linked user) is stated by PullEventShape |
| EngagementSpec.UpsertSnapshot | packages/api/src/crm/engagement/services/engagement.service.ts:247-262 | afterwards the owner has one snapshot with the latest payload and time. An existing snapshot keeps its id and format; a new one gets the fresh id and "json". Others are untouched |
| EngagementSpec.Render | packages/api/src/crm/engagement/services/engagement.service.ts:320-365 | the output of one row succeeds exactly when no raw payload is asked for or the row has a snapshot; otherwise it fails with RemoteDataNotFound. What a successful output holds is stated by RenderMeaning |
| EngagementSpec.RenderMeaning | packages/api/src/crm/engagement/services/engagement.service.ts:386-447 | a listed record's output carries its id and fields and the field_mappings built from its value rows. It carries a raw payload exactly when one is asked for, and that payload is the record's snapshot |
| EngagementSpec.FindById | packages/api/src/crm/engagement/services/engagement.service.ts:302-306 | the row found has the id; none is found exactly when no row has it |
| EngagementSpec.GetSpec | packages/api/src/crm/engagement/services/engagement.service.ts:297-371 | getEngagement fails with EngagementNotFound exactly when no row has the id. Its full meaning is stated by GetEngagementMeaning |
| EngagementSpec.MatchingRows | packages/api/src/crm/engagement/services/engagement.service.ts:379-384 | exactly the rows of the platform and linked user |
| EngagementSpec.MatchingRowsExactly | packages/api/src/crm/engagement/services/engagement.service.ts:379-384 | each of those rows comes back as often as it occurs in the table, none other, and in table order |
| EngagementSpec.RenderAll | packages/api/src/crm/engagement/services/engagement.service.ts:386-448 | on success, one output per row in order, each the row's own output. On failure, some row has no snapshot and the error is RemoteDataNotFound |
| EngagementSpec.RenderAllFails | packages/api/src/crm/engagement/services/engagement.service.ts:435-448 | one row without a snapshot fails the whole list |
| EngagementSpec.RenderAllSucceeds | packages/api/src/crm/engagement/services/engagement.service.ts:386-448 | when every row's output exists, the list is exactly those outputs |
| EngagementSpec.ListSpec | packages/api/src/crm/engagement/services/engagement.service.ts:373-468 | getEngagements never changes rows, snapshots or value rows. It fails only when raw payloads are asked for, and then writes nothing |
| EngagementSpec.AddSpec | packages/api/src/crm/engagement/services/engagement.service.ts:57-294 | addEngagement never changes linked users, companies or value rows, and a failed call writes nothing. It reconciles with the exact lookup (see Left out) |
| EngagementSpec.BatchSpec | packages/api/src/crm/engagement/services/engagement.service.ts:33-55 | one result per input, and linked users, companies and value rows are unchanged |
| EngagementSpec.GetEngagementMeaning | packages/api/src/crm/engagement/services/engagement.service.ts:297-371 | succeeds exactly when the record exists and, if remote data is requested, has a snapshot. The output has the row's id and fields, its field_mappings (distinct slugs, last value wins, empty only without value rows), and the snapshot payload exactly when requested |
| EngagementSpec.ListEngagementsMeaning | packages/api/src/crm/engagement/services/engagement.service.ts:373-468 | lists the rows of the lower-cased provider and the linked user, in the order MatchingRowsExactly gives. Output i has row i's id and fields, the field_mappings built from its value rows, and its snapshot payload exactly when raw payloads are asked for. It fails only on a missing snapshot and then writes nothing; on success it appends one pull event and writes nothing else |
| EngagementSpec.PullEventShape | packages/api/src/crm/engagement/services/engagement.service.ts:450-462 | the pull event is appended after the existing ones: the event id, success, crm.engagement.pulled, GET, /crm/engagements, the provider id as given, direction "0", the call's time, the linked user |
| EngagementSpec.AddFailsOnlyBeforeWrites | packages/api/src/crm/engagement/services/engagement.service.ts:63-162 | addEngagement succeeds exactly when validation, the provider call and unify all succeed. Every failure leaves the store unchanged, and a validation failure returns the validation error |
| EngagementSpec.AddKeepsOneRowPerIdentity | packages/api/src/crm/engagement/services/engagement.service.ts:140-244 | given a fresh id, ids and remote identities stay unique, and the only id that can appear is the fresh one |
| EngagementSpec.AddReconcilesByRemoteIdentity | packages/api/src/crm/engagement/services/engagement.service.ts:140-267 | after a successful push exactly one row has the payload's identity: the output's row, with the output's fields. Other rows are unchanged, at most one row is added, and values, linked users and companies are untouched |
| EngagementSpec.AddUpdatesOrCreates | packages/api/src/crm/engagement/services/engagement.service.ts:154-244 | an existing row keeps id and created_at, gets modified_at = now, and the truthy unified fields overwrite it. Otherwise one row is appended with the fresh id, the identity and only the truthy unified fields |
| EngagementSpec.AddStoresLatestSnapshot | packages/api/src/crm/engagement/services/engagement.service.ts:246-267 | the output row's snapshot holds the provider's payload, no other snapshot changes, and the output carries the payload when requested |
| EngagementSpec.AddAppendsOnePushEvent | packages/api/src/crm/engagement/services/engagement.service.ts:269-283 | a push past unify appends one event after the existing ones: the event id, status by the 201 check, crm.engagement.push, POST, /crm/engagements, provider, direction "0", the call's time, linked user. Any other push appends none |
| EngagementSpec.AddWritesReconciledRow | packages/api/src/crm/engagement/services/engagement.service.ts:140-267 | the table after a push is the reconciled table, and the output is its owner row read back |
| EngagementSpec.AddIdempotent | packages/api/src/crm/engagement/services/engagement.service.ts:140-262 | pushing the same engagement twice with the same provider answer adds no second row, and returns the same id and fields |
| EngagementSpec.AddIgnoresContacts | packages/api/src/crm/engagement/services/engagement.service.ts:94-107 | the contact ids never change the result or the store: their check runs detached and is not awaited |
| EngagementSpec.BatchResultsInOrder | packages/api/src/crm/engagement/services/engagement.service.ts:33-55 | one result per input, in order. Result k is addEngagement on input k, with the lower-cased provider, on the store the earlier inputs left |
| EngagementSpec.BatchKeepsOneRowPerIdentity | packages/api/src/crm/engagement/services/engagement.service.ts:33-55 | with distinct fresh ids, a batch keeps ids and remote identities unique and adds only fresh ids |
| Service.ApplyTruthyFields | packages/api/src/crm/engagement/services/engagement.service.ts:156-185 | the sequence of truthy-field assignments computes the sparse overlay |
| Service.RenderRows | packages/api/src/crm/engagement/services/engagement.service.ts:386-448 | the two passes over the listed rows, first the outputs with field mappings and then the raw payloads, give exactly RenderAll |
| Service.EngagementService.constructor | packages/api/src/crm/engagement/services/engagement.service.ts:23-31 | the service starts on a store with unique ids and identities, and its tables are that store |
| Service.EngagementService.GetEngagement | packages/api/src/crm/engagement/services/engagement.service.ts:297-371 | returns what getEngagement specifies on the current tables |
| Service.EngagementService.GetEngagements | packages/api/src/crm/engagement/services/engagement.service.ts:373-468 | the list and the new tables are those getEngagements specifies, and unique ids and identities are kept |
| Service.EngagementService.AddEngagement | packages/api/src/crm/engagement/services/engagement.service.ts:57-294 | the result and the new tables are those addEngagement specifies, and unique ids and identities are kept |
| Service.EngagementService.BatchAddEngagements | packages/api/src/crm/engagement/services/engagement.service.ts:33-55 | the results and the new tables are those batchAddEngagements specifies, and unique ids and identities are kept |
| ZohoMappers.MapEach | packages/api/src/crm/engagement/services/zoho/mappers.ts:32-34 | `source.map`: same length; element i is the mapping of input element i with the same custom field mappings |
| ZohoMappers.UnifyWith | packages/api/src/crm/engagement/services/zoho/mappers.ts:19-35 | a single object gives a single result, the mapping of that object. An array gives an array of the same length, element i mapped from element i, every call with the same custom field mappings |
| ZohoMappers.UnifyIgnoresEngagementType | packages/api/src/crm/engagement/services/zoho/mappers.ts:19-35 | the result does not depend on `engagement_type` |
| ZohoMappers.UnifyManyIsPointwise | packages/api/src/crm/engagement/services/zoho/mappers.ts:27-34 | unifying an array is unifying each element on its own, in order |
| ZohoMappers.Desunify | packages/api/src/crm/engagement/services/zoho/mappers.ts:9-17 | returns undefined |
| ZohoMappers.MapSingleEngagementToUnified | packages/api/src/crm/engagement/services/zoho/mappers.ts:37-45 | returns undefined |
| ZohoMappers.Unify | packages/api/src/crm/engagement/services/zoho/mappers.ts:19-35 | an array yields an array of the same length and a single object a single result |
| ZohoMappers.ZohoUnifyYieldsNothing | packages/api/src/crm/engagement/services/zoho/mappers.ts:19-45 | a single object unifies to undefined and an array to an array of undefined of the same length |
| ZohoPush.ZohoUnifier | packages/api/src/crm/engagement/services/engagement.service.ts:131-141 | element 0 of unifying `[resp.data]` with no custom field mappings through the Zoho mapper is undefined (see Left out for the generic unify) |
| ZohoPush.ZohoAddWritesNothing | packages/api/src/crm/engagement/services/engagement.service.ts:131-162 | with the Zoho mapper every push fails and leaves the store unchanged. A push past validation and the provider call fails with UnifiedNothing |
| ZohoPush.ZohoBatchWritesNothing | packages/api/src/crm/engagement/services/engagement.service.ts:33-55 | with the Zoho mapper every input of a batch fails and the store is unchanged |

## Left out

- `updateEngagement` (engagement.service.ts:470-475) is a stub with no behaviour and is not modelled.
- The webhook call after the push event (engagement.service.ts:284-289) and the linked user's project id are not modelled. The webhook service is not part of this model.
- The logger and `handleServiceError` are not modelled. An error is a `Failure` result naming the check that threw.
- `desunify`, `ServiceRegistry.getService` and the provider adapter's `addEngagement` are not modelled. The adapter's answer reaches the model as a parameter (`CallEnv.response`), and the generic `unify` as a function parameter.
- JSON serialisation of the payload into `remote_data` and parsing it back are not modelled. The payload is stored and returned as a value, so the model assumes parse undoes stringify.
- `Promise.all` concurrency in batchAddEngagements and getEngagements is not modelled. The calls run sequentially in input order, so interleavings of concurrent pushes of the same remote identity, which could create duplicate rows, are not captured.
- `toUpperCase`/`toLowerCase` are modelled on ASCII letters only. Unicode case mapping is not modelled.
- Every `new Date()` in one call reads the same instant (`CallEnv.now`). The real clock may advance between calls.
- The rows of a findMany come back in insertion order. The database gives no ordering guarantee.
- `ENGAGEMENTS_TYPE` comes from a file that is not part of this model. The accepted types are the service's constant `engagementTypes`.
- The contact-id check (engagement.service.ts:94-107) starts lookups that are never awaited, so its errors never reach the caller. The model gives the check no effect, and `crm_engagement_contacts` is not modelled.
- A `type` that is undefined makes `toUpperCase` throw at engagement.service.ts:84. That happens after the linked-user and company checks (lines 64-83) and before the type checks. The model's input type is always a string, so that path is not modelled.
- The environment service, field-mapping controller, ticketing comment utilities and the ticketing modules are not part of this model.
- Service.EngagementService.GetEngagement: does not model the crash when the id is unknown (the source dereferences a null row). The model returns `EngagementNotFound` instead.
- Service.EngagementService.GetEngagement: does not model the crash when remote data is requested and no snapshot exists. The model returns `RemoteDataNotFound`.
- EngagementSpec.AddSpec: reconciles with the exact lookup `Reconciliation.FindExisting`, not the lookup as written. For a payload without `id` the code updates any row of the same platform and linked user, while the model appends a new row. `Reconciliation.AsWrittenAgreesWhenIdPresent` proves the two lookups agree on every payload that has an `id`.
- Service.EngagementService.AddEngagement: uses the exact lookup for the same reason as AddSpec, so the same payloads without `id` are modelled as intended rather than as written.
- EngagementSpec.BatchSpec: assumes `handleServiceError` returns normally, so a failed element yields a per-element failure and the batch goes on. If it rethrows, `Promise.all` rejects on the first failure and the batch returns no results, while the other elements still write. `handleServiceError` is not part of this model.
- ZohoPush.ZohoUnifier: assumes the generic `unify` passes `[resp.data]` to `ZohoEngagementMapper.unify` with the empty custom field mappings and returns that mapper's result unchanged. The generic `unify` is not part of this model.

## Findings

| source | as written | input that shows it | evidently intended | confidence | as-written member | corrected member |
|---|---|---|---|---|---|---|
| packages/api/src/crm/engagement/services/engagement.service.ts:143-152 | when the provider payload has no `id`, `originId` is undefined and the query ignores the `remote_id` condition, so `findFirst` returns any row of the same platform and linked user. When the provider's unify yields an object, that unrelated row is then overwritten (line 191); with the Zoho mapper unify yields nothing and the push fails first | store row with remote id "42", platform "hubspot", user "user-1"; push answered with a payload without `id` for the same platform and user, unified to an object | match only a row whose remote id is also absent, so an answer without an id never overwrites another record | medium, not executed | Reconciliation.MissingRemoteIdMatchesUnrelatedRecord | Reconciliation.FindExisting |
