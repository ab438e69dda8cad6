# Verified model of the provisioning and invocation workers

A Dafny model of the parts of the deployment platform that hold state across steps that can fail:
the life of a template, the provisioning and deprovisioning of a tenant, the teardown of a
workspace's policy engine, the queue batch loop and the forwarding of an agent's stream, and the
smaller algorithms they rest on. Every service call is an oracle: it may give any answer its
contract allows, or throw. `dafny verify dfyconfig.toml` checks the whole project.

| file | what it models |
|---|---|
| `UpdateExpressions.dfy`, `TemplateUpdates.dfy` | update expressions, what the table does with them, and the builders of the templates API, as a compiler proved against direct record updates |
| `TemplateLifecycle.dfy`, `TemplateRuns.dfy` | the templates table with its operations, one write at a time, and the theorems about whole runs |
| `TemplateListing.dfy`, `StableSort.dfy` | the paged fetch of one status and the cursor walk over the merged drafts |
| `SessionBilling.dfy`, `PublishMarketing.dfy`, `TemplatePublishing.dfy` | session billing as the publish check, the price line and the provisioning worker read it; the marketing document on its way through publishing |
| `PolicyTeardown.dfy` | the gateway service with visible and hidden associations, and the teardown of an engine |
| `TenantDeprovision.dfy` | the ordered teardown of a tenant's stacks; it calls the policy teardown |
| `UseCaseLookup.dfy`, `ProvisionPolling.dfy` | the paged search, the polls and the shared wall-clock budget |
| `TenantProvision.dfy`, `OrchestratorProvision.dfy` | one run of each provisioning worker, as the events it attempts and the deploy calls it makes |
| `BatchLoop.dfy`, `StreamForwarding.dfy` | the two queue workers' batch loop, and the chunk loop with the end token and keep-alive |
| `InvokeLock.dfy` | the non-blocking invoke lock of the workflow runtime |
| `StackNames.dfy`, `StackIds.dfy`, `Strings.dfy` | the stack-name sanitiser, the names that carry an instance's suffix, and the stack's name as it is read out of its id |
| `StackStatuses.dfy`, `Calls.dfy` | stack statuses with the workers' sets, and answers of calls |

A field such as `history`, `events`, `deploys`, `trace` or `posts` records what a run did; a
`ghost` out-parameter such as `es` names the part one call added. A property of "every run" is
stated of such a record for all answers. A ghost in-parameter of the provisioning methods, such as
`agentIds`, stands for any value: the clause about it holds for all. `faults` and `failed` count the
calls that threw or were refused and the writes that threw; a clause that asks for none says what the
code does when every call goes through, whatever the answers are.

## What the proofs found

- A limit below zero makes the draft cursors go on for ever (`TemplateListing.WalkEnds`).
- A stack that is rolling back is in flight according to `source/lambda/templates-api/utils/constants.ts`,
  whose comment says in-flight statuses must not read as failed; a refresh reports it failed. The
  model follows the code (`TemplateRuns.InFlightRollbackIsReportedFailed`; the input is
  `TemplateRuns.InFlightRollbackExample`).
- An amount written as a string passes the publish check and yields no price line
  (`SessionBilling.StringAmountHasNoLine`), so publishing with a blank summary fails
  (`PublishMarketing.StringAmountFailsPublish`); the exact condition is `PublishMarketing.SessionVerdict`.
- The policy engine is looked for by containment of its id, so a gateway of an engine with a longer id
  is detached too (`PolicyTeardown.DisassociateTakesLongerId`); other gateways are untouched exactly
  under the condition of `PolicyTeardown.OthersUntouchedUnlessContained`.
- The branch for a `removed` earlier deployment in the tenant worker is never reached: the lookup
  answers only `none` and `resume`, which is the model's `Resumable`.
- The tenant worker looks at the first matching row of an unordered scan. With an answering search and
  probe, a run deploys if and only if no row matches or the stack of the first match does not resume
  (`TenantProvision.DeployOrResumeAgent`). So the row of a removed deployment in front of a live one
  makes a run deploy again, and name and poll the removed use case, although it deployed another
  (`TenantProvision.DeployBehindStaleRow`), until a row turns up in front of it. A deploying run names
  the use case it deployed exactly when the first match is no older row (`UseCaseLookup.FoundIsDeployed`).
- A redelivered request need not come back to the same use case, since a row on its way can turn up in
  front of the first one's (`UseCaseLookup.OrderDecides`). It does for every table where no other use
  case of the name is on its way, also where there was none before the first run
  (`TenantProvision.HandleTwice`); for the search alone that condition is exact
  (`UseCaseLookup.LeadIsSettled`).
- The teardown of an engine fails for good when a gateway other than the named one holds an association
  it does not show; with an honest service and gateways that can be updated that is the only reason, but
  for two corner cases spelled out in `PolicyTeardown.HonestResult` (`PolicyTeardown.TeardownEngine`). A
  gateway that shows pe-10 and holds pe-1 hidden is such a one: the walk for pe-1 takes pe-10 from it and
  leaves pe-1 (`PolicyTeardown.UnseenBehindLongerId`). On the named gateway that takes two heals, and the
  retries alone a third attempt (`PolicyTeardown.HiddenBehindLongerId`,
  `PolicyTeardown.DeletePolicyEngineWithRetry`).
- The tool-usage type check comes too late: the log line before it asks the value for its keys, so a
  value that is no dictionary throws (`StreamForwarding.ForwardChunk`).
- The deprovisioning waits for a stack under the last segment of its id. Of a whole stack id, as
  `source/lambda/use-case-management/test/model/get-use-case.test.ts:22` has it, that is the uuid, which no
  stack is called by: the wait is over with the first description, and the agent's delete is asked for while the
  gateway's stack may stand (`TenantDeprovision.StandingIsConfirmed`). The exact condition is that the
  last segment is the stack's name or all of its id (`TenantDeprovision.AgentAskedBehindGateway`).
- The tenant worker and the template tests look for a path part that reads `stack` and so find no name in a
  whole stack id; they always fall back to the stack expected by name. Only the orchestrator worker finds it
  (`StackIds.WholeIdReads`).
- The end token is sent once exactly when no content chunk spells it (`StreamForwarding.EndTokenOnce`).
- Failures are grouped by the queue attribute but compared with the request's own connection: after a
  failed attempt a record on which they differ is attempted again (`BatchLoop.SameRecordAgain`), until
  it succeeds or the time is up. `BatchLoop.HandleBatch` states exactly which batches this happens to.
- A streaming reply that nobody starts leaks the invoke lock (`InvokeLock.DroppedStreamLeaks`).
- Behind a base of 182 to 191 characters gateway names can collide where agent names do not, depending
  on where the suffixes first differ (`StackNames.GatewayNamesDistinct`).

## Assumptions

- Templates: the table starts empty, ids of new templates are fresh, the slug index is consistent,
  and operations do not interleave; each write of an operation is a separate step, may be the
  last one, and may fail before or after it took effect. Clauses of one expression are pushed in one fixed order. Statuses are enumeration values.
  Whether a slug is well formed and a devops document valid are parameters.
- Billing and marketing: JavaScript's number, string, trim, case, locale and parse conversions are
  parameters with the laws in `SessionBilling.Lawful`; numbers are reals. Stored marketing is an object;
  the line and the check of a token-based subscription are parameters.
- Policy teardown: a page token is a position in a fixed listing order, and a page ends anywhere
  behind it; ids are not blank; reading a gateway shows its current state; no one else changes the
  associations meanwhile; only an engine that is gone answers "not found"; an association can only
  be made with an engine that exists; arns are unique. An `honest` service in addition throws only
  association conflicts and settles at once; only the clauses that say so rely on it.
- Provisioning: sleeps are exact and a call within a probe takes at most `callMs`; a probe makes at
  most three. The use cases table is keyed by the id
  (`source/infrastructure/lib/storage/deployment-platform-storage-stack.ts:42-49`), so every row has
  one, and ids are not used again. A scan has no promised order: a new row turns up anywhere among the
  others, at any time, also in the course of a search, while those keep their order. Rows are written
  only by deploy calls, of this run or pending from earlier ones, at most one by each; they stay.
  Environment variables are present.
- Deprovisioning: a stack that is gone stays gone; a stack is described under its name or its whole id, and
  nothing else than a stack that is gone reads as deleted or is not found.
- Batch: outcomes and times are given by record and attempt; a repeated attempt takes time.
- Streams: text fields are strings, and the observability and metering calls do not matter for what
  is sent; keep-alive pings are not recorded.

## Model

| member | source | states |
|---|---|---|
| TemplateRuns.PublishedOnlyWhenValidated | source/lambda/templates-api/index.ts:850-879 | In every run of the operations, with any deployment answers and a crash possible after every write: a template that is no orchestrator becomes published only when its deployment is active and an earlier write stamped it while the deployment was active, with testing uninterrupted and devops unedited in between |
| TemplateRuns.StampHasOrigin | source/lambda/templates-api/index.ts:795-820 | Every validation stamp found at any point of a run goes back to one stamping write, and stands only as long as the same testing session and the same devops |
| TemplateRuns.PublishedSlugsAreUnique | source/lambda/templates-api/index.ts:475-489 | At no point of any run do two published templates share a slug |
| TemplateRuns.PublishedStaysPut | source/lambda/templates-api/index.ts:393-401 | Once published, a template is published or archived for good, archived is terminal, and slug and devops never change again |
| TemplateRuns.TestingAttributesOnlyInTesting | source/lambda/templates-api/index.ts:199-210 | After every single write: outside testing there is no Testing* attribute, in testing there are a test name and a deploy status |
| TemplateRuns.StatusMovesAlongEdges | source/lambda/templates-api/index.ts:949-975 | After every single write the status moved along an edge of draft, in_testing, published, archived; a new template is a draft |
| TemplateRuns.StoreIsSafe | source/lambda/templates-api/index.ts:199-210 | Whatever operations a store went through: after every write the attribute rule, an edge of the status, and archived for good |
| TemplateRuns.StoreSlugsAreUnique | source/lambda/templates-api/index.ts:881-882 | No two templates a store holds as published share a slug, whatever operations it went through |
| TemplateRuns.StorePublishesValidated | source/lambda/templates-api/index.ts:866-879 | Whatever operations a store went through: a published template that is no orchestrator was published on an active deployment and had been validated on one, in that session and with the devops it still has |
| TemplateRuns.RefreshSeesActive | source/lambda/templates-api/index.ts:596-675 | A refresh reports active exactly when a use case is known, the stack record names no rollback or deletion and one of the two sources is active; it falls back to draft exactly for a deleted stack; it never grants a stamp |
| TemplateRuns.RefreshSeesFailed | source/lambda/templates-api/index.ts:613-675 | A refresh reports a failure exactly when the stack has a rollback, a deletion or a failed creation on record but is not gone, or one of the two sources failed and neither is active or in progress; the error stored is the stack's own reason, or that the stack is kept, and none where nothing failed |
| TemplateRuns.RefreshShowsUrl | source/lambda/templates-api/index.ts:616-671 | The runtime URL is the probe's, or else the stack's, and none with a stack that was rolled back or deleted |
| TemplateRuns.RefreshLinks | source/lambda/templates-api/index.ts:596-611 | A template without a use case is linked to the one found under its test name, or goes on deploying with a note that it waits |
| TemplateRuns.CancelUndoesStart | source/lambda/templates-api/index.ts:775-783 | Cancelling a started test leaves the draft it was started from, except for the time stamp, whatever the deployment answered |
| TemplateRuns.DevopsEditInvalidates | source/lambda/templates-api/index.ts:426-448 | A devops edit during testing costs the stamp, marks the deployment stale, and bars publishing |
| TemplateRuns.EditReads | source/lambda/templates-api/index.ts:409-456 | After an edit each document reads as the edit carries it, or as before where it carries none |
| TemplateRuns.EditKeepsRest | source/lambda/templates-api/index.ts:449-460 | Ratings are kept, dropped or replaced; status and test session are left alone |
| TemplateRuns.NewReads | source/lambda/templates-api/index.ts:310-353 | A new template shows what it was created from, and nothing optional that was not given |
| TemplateRuns.TestNamesDiffer | source/lambda/templates-api/template-testing.ts:234-238 | Test deployments of one slug have different names exactly when the ids differ in their first eight characters other than hyphens, for slugs of up to 182 characters |
| TemplateRuns.InFlightRollbackIsReportedFailed | source/lambda/templates-api/index.ts:613-637 | An in-flight stack is reported failed exactly when its status names a rollback, although the status sets say in-flight must not read as failed |
| UpdateExpressions.PushedCompiles | source/lambda/templates-api/index.ts:505-583 | The expression compiler preserves meaning for every combination of absent, null and set fields: the expression is accepted (aliases exactly those used, no attribute written twice, the key untouched) and does to every item what the delta says |
| UpdateExpressions.CompiledIsExact | source/lambda/templates-api/index.ts:580-593 | No attribute is both SET and REMOVEd, and every attribute outside the delta is left alone |
| UpdateExpressions.SetCompiles | source/lambda/templates-api/index.ts:510-514 | Pushing a SET clause turns an expression for a delta into one for the delta with that attribute put |
| UpdateExpressions.RemoveCompiles | source/lambda/templates-api/index.ts:515-518 | The same for a REMOVE clause |
| UpdateExpressions.UpdateBuilder.Compiled | source/lambda/templates-api/index.ts:580-593 | What was pushed onto the arrays and maps is an accepted expression that means the pushed changes |
| TemplateUpdates.BuildTestingUpdate | source/lambda/templates-api/index.ts:504-583 | The testing-state expression is accepted and equals, on all items, the record update written attribute by attribute |
| TemplateUpdates.BuildEditUpdate | source/lambda/templates-api/index.ts:409-460 | The same for the edit, with the stale mark and the removed stamp exactly when devops is edited in testing |
| TemplateUpdates.BuildPublishUpdate | source/lambda/templates-api/index.ts:949-975 | The fixed publish expression is accepted and equals leaving testing as published with the two publish attributes |
| TemplateUpdates.BuildUnpublishUpdate | source/lambda/templates-api/index.ts:1065-1083 | The decommission expression is accepted and equals its record update |
| TemplateUpdates.BuildStampUpdate | source/lambda/templates-api/index.ts:803-818 | The stamp expression is accepted and equals its record update |
| TemplateUpdates.BuildMarketingUpdate | source/lambda/templates-api/index.ts:933-945 | The price-line expression is accepted and equals its record update |
| TemplateLifecycle.TemplateStore.CreateTemplate | source/lambda/templates-api/index.ts:310-353 | Adds one draft with exactly the given documents; a refused slug changes nothing; a failed write has added it or not |
| TemplateLifecycle.TemplateStore.UpdateTemplate | source/lambda/templates-api/index.ts:381-470 | Refused exactly for published, archived or a bad slug; otherwise the edit, on this item only; after a failed write the item as it was, or edited |
| TemplateLifecycle.TemplateStore.PersistTestingState | source/lambda/templates-api/index.ts:491-594 | One write of the optional changes, or none |
| TemplateLifecycle.TemplateStore.SyncTestingDeployStatus | source/lambda/templates-api/index.ts:596-675 | The item after a refresh, for all answers; when a call fails it stays in testing, when a write fails it stays so or is refreshed all the same; active afterwards only if it was before or the stack or the probe was seen active and the stack in no rollback |
| TemplateLifecycle.TemplateStore.StartTesting | source/lambda/templates-api/index.ts:677-773 | Exactly when a start is refused; the item of each way a start can succeed, also behind a link write that failed after it took effect: a fresh start leaves a session just begun, deploying, under its test name, with the use case resolved, or recovered behind a failure and then with its message; a failed deploy without a use case restores the draft; a failed call has its reason; whatever comes of it, active afterwards only if it was before or the sync saw the stack or the probe active and the stack in no rollback |
| TemplateLifecycle.DeployedIsAnew | source/lambda/templates-api/index.ts:719-763 | What a deployment after a fresh start leaves, written out by attributes: in testing, deploying, no stamp, no URL, the test name, the time, the use case resolved or recovered |
| TemplateLifecycle.RefreshedIsSeen | source/lambda/templates-api/index.ts:613-675 | A refresh shows an active deployment only when its answers show one |
| TemplateLifecycle.RecoveryOverwrites | source/lambda/templates-api/index.ts:744-765 | The recovery after a failed link write leaves the same item whether that write took effect or not |
| TemplateLifecycle.TemplateStore.CancelTesting | source/lambda/templates-api/index.ts:775-783 | Refused exactly outside testing; otherwise back to draft with everything of testing dropped |
| TemplateLifecycle.TemplateStore.RestartTesting | source/lambda/templates-api/index.ts:785-793 | A restart that succeeds is a start from the cancelled draft; active afterwards only if the sync saw it so |
| TemplateLifecycle.TemplateStore.MarkTestingValidated | source/lambda/templates-api/index.ts:795-820 | Refused exactly unless in testing with an active deployment; otherwise the stamp and nothing else |
| TemplateLifecycle.TemplateStore.RefreshTestingStatus | source/lambda/templates-api/index.ts:822-848 | Refresh in testing, adoption of an orphaned deployment from draft, refused exactly otherwise; active afterwards only if it was before or was seen so |
| TemplateLifecycle.TemplateStore.PublishTemplate | source/lambda/templates-api/index.ts:850-975 | Refused only if a check written out by attributes does not hold: an orchestrator in draft or testing, any other template in testing, active and stamped; valid devops; no other published template with the slug; the marketing check. Writes only if all hold; a failed slug query ends it exactly behind the status check; on success the published item; after a failed write the item as it was, with the new price line, or published |
| TemplateLifecycle.MayPublishByChecks | source/lambda/templates-api/index.ts:860-882 | The checks as the code makes them hold exactly when the attributes are as publishing asks |
| TemplateLifecycle.TemplateStore.UnpublishTemplate | source/lambda/templates-api/index.ts:1019-1083 | Refused exactly unless published; a failed announcement changes nothing; otherwise archived |
| TemplateListing.QueryAllTemplatesByStatus | source/lambda/templates-api/index.ts:265-274 | The pages up to the first 500 items, and at most 549 items when pages hold at most 50 |
| TemplateListing.ShortListsAreComplete | source/lambda/templates-api/index.ts:265-274 | Nothing is missing when the pages before the last hold fewer than 500 |
| TemplateListing.WalkSoFar | source/lambda/templates-api/index.ts:281-294 | After k cursors the client has seen exactly a prefix of the merged list |
| TemplateListing.PageHolds | source/lambda/templates-api/index.ts:277-294 | A page holds as many templates as asked for, 20 when none are asked for and at most 50, from its offset on, and fewer only at the end |
| TemplateListing.WalkEnds | source/lambda/templates-api/index.ts:277-294 | Following the cursors terminates if and only if the requested limit is not negative |
| TemplateListing.DraftWalkIsComplete | source/lambda/templates-api/index.ts:286-299 | A finished walk has shown drafts and templates in testing exactly once each, newest first, ties in fetched order |
| StableSort.SortIsStable | source/lambda/templates-api/index.ts:290-292 | The sort used by the list and by the price line is ascending, a permutation, and stable |
| SessionBilling.ValidateSessionSubscriptionCommercial | source/lambda/templates-api/catalog-fields.ts:186-243 | Accepts exactly the valid session billing; otherwise names the first check that fails, and the first bad tier |
| SessionBilling.ValidSessionMeans | source/lambda/templates-api/catalog-fields.ts:186-212 | What accepted session billing is, by its fields: a currency of three capital letters, version 1, a model id that is not blank, and at least one tier, all of them passing |
| SessionBilling.ValidTierMeans | source/lambda/templates-api/catalog-fields.ts:212-243 | A tier passes exactly with an id and a name that are not blank, a whole number of sessions from 1, a monthly interval and a whole number of cents from 1 |
| SessionBilling.WholeIsInteger | source/lambda/templates-api/catalog-fields.ts:225-228 | The finite, bounded and rounding tests together ask for an integer |
| SessionBilling.RoundIsNearest | source/lambda/templates-api/catalog-fields.ts:19-25 | Rounding gives the nearest integer, the upper one on ties |
| SessionBilling.SessionCommercialFromMarketing | source/lambda/tenant-provision-subscriber/session-commercial.ts:32-70 | A stamp exactly for a document that is readable level by level with at least one readable tier; the stamps are those of exactly the readable raw tiers, in order, with their ids and rounded counts |
| SessionBilling.AsRecordReads | source/lambda/tenant-provision-subscriber/session-commercial.ts:14-29 | An object counts as it is, a string as the object it parses to, anything else not |
| SessionBilling.StampReadableTiers | source/lambda/tenant-provision-subscriber/session-commercial.ts:53-65 | The stamped tiers stand at increasing positions of the raw list, which are all the readable ones |
| SessionBilling.StampTierMeans | source/lambda/tenant-provision-subscriber/session-commercial.ts:53-65 | A tier is stamped exactly with an id and a whole number of sessions from 1, whatever its name, interval and amount are; the stamp carries both |
| SessionBilling.ParseValidated | source/lambda/tenant-provision-subscriber/session-commercial.ts:32-70 | Whatever the publish check accepts, the worker parses without loss: same model id, same tiers in order, ids and session counts |
| SessionBilling.ResolveTierFindsFirst | source/lambda/tenant-provision-subscriber/session-commercial.ts:73-85 | The first tier of the stamped id, the first tier without one, nothing exactly when there is none |
| SessionBilling.BillingModelReads | source/lambda/templates-api/catalog-fields.ts:13-17 | A model that is a string and not blank counts, trimmed; any other reads as contact_sales |
| SessionBilling.MoneyReads | source/lambda/templates-api/catalog-fields.ts:19-25 | A formatted amount reads back as the cents it was made of |
| SessionBilling.CheapestIsFirst | source/lambda/templates-api/catalog-fields.ts:103-128 | The head of the sorted prices is the cheapest priced tier, the earliest listed on ties |
| SessionBilling.PriceTierMeans | source/lambda/templates-api/catalog-fields.ts:109-123 | A tier is priced exactly when its amount is a number that rounds to no negative one, its interval is a month and its number of sessions whole, and then at the nearest number of cents |
| SessionBilling.SummaryQuotesCheapestTier | source/lambda/templates-api/catalog-fields.ts:86-130 | For accepted billing a price line exists if and only if some amount is a number; it then quotes amount, sessions and currency of the cheapest such tier, earliest on ties |
| SessionBilling.LineCurrency | source/lambda/templates-api/catalog-fields.ts:86-93 | The currency of a line is the one given, trimmed and in capital letters, or else USD |
| SessionBilling.StringAmountHasNoLine | source/lambda/templates-api/catalog-fields.ts:86-130 | Billing that the publish check accepts and that yields no price line: the amount is written as a string |
| PublishMarketing.FillSummary | source/lambda/templates-api/index.ts:887-908 | A blank summary becomes the generated line where there is one; nothing else of the document differs, except that a string or an array as pricing becomes an object of its entries; a summary of its own is kept |
| PublishMarketing.IndexedEntries | source/lambda/templates-api/index.ts:895-895 | Spreading a string or an array leaves each entry under its index, and nothing else |
| PublishMarketing.SpreadReads | source/lambda/templates-api/index.ts:895-895 | Of an object its fields are spread, of an array its entries, of a string its characters, of anything else nothing |
| PublishMarketing.ValidateMarketingForPublish | source/lambda/templates-api/catalog-fields.ts:315-356 | Passed exactly for a described document with a summary and sound billing; the missing summary is named exactly when the two names are there and the summary is blank |
| PublishMarketing.DescribedMeans | source/lambda/templates-api/catalog-fields.ts:315-345 | Described means: display name, short description, an SLA link or document, and onboarding steps, none blank |
| PublishMarketing.LineByModel | source/lambda/templates-api/index.ts:888-908 | A token subscription gets its own line, models without a formatter none |
| PublishMarketing.LineIsGenerated | source/lambda/templates-api/index.ts:899-908 | For accepted session billing a line is generated if and only if some amount is a number, and it is not blank |
| PublishMarketing.GeneratedLineReads | source/lambda/templates-api/catalog-fields.ts:86-130 | The stored line reads back: its second word as the cents of the cheapest amount, its third as the accepted currency, its eighth as that tier's number of sessions in the locale, where the locale writes it without a blank |
| PublishMarketing.LineReads | source/lambda/templates-api/catalog-fields.ts:129-129 | Amount, currency, period and count stand in the line as words of their own |
| PublishMarketing.SessionVerdict | source/lambda/templates-api/catalog-fields.ts:325-331 | Accepted session billing passes if and only if the summary is not blank or some amount is a number; otherwise it fails for the missing summary |
| PublishMarketing.StringAmountFailsPublish | source/lambda/templates-api/catalog-fields.ts:325-331 | A described template with accepted billing, its only amount a string and no pricing of its own, fails for the missing summary |
| TemplatePublishing.PublishStored | source/lambda/templates-api/index.ts:850-975 | Publishing of a stored template with its marketing: published only described, with a summary and with sound billing; with accepted session billing and ready otherwise, it is refused exactly for a blank summary without a numeric amount; a template ready in every respect is refused only for a document that is not described, has no summary or no sound billing |
| TemplatePublishing.StoredReads | source/lambda/templates-api/index.ts:884-884 | The stored marketing text counts when it parses to an object; otherwise the document is empty |
| PolicyTeardown.TeardownEngine | source/lambda/tenant-deprovision-subscriber/teardown-workspace-policy-engine.ts:318-361 | On normal return the engine and all its policies are gone, no gateway is associated with it, and every gateway other than the named one whose shown arn is not of the form before + id + after is untouched; no gateway is named only if none has the derived name; an association another gateway holds without showing it makes it fail, whatever the service does; with an honest service and gateways that can be updated it succeeds if and only if there is none (and, should the arn end in a slash, the named gateway does not hold the engine while showing another), and otherwise ends with the blocked error; an engine already on its way out with nothing attached is reported missing |
| PolicyTeardown.TeardownWorkspacePolicyEngine | source/lambda/tenant-deprovision-subscriber/teardown-workspace-policy-engine.ts:303-361 | The same, failures included, for the engine named after the instance; without an instance or an engine nothing changes, and an honest service does not fail |
| PolicyTeardown.DeletePolicyEngineWithRetry | source/lambda/tenant-deprovision-subscriber/teardown-workspace-policy-engine.ts:262-297 | At most 6 attempts, 5 unblocking steps and 75000 ms of backoff, 5000 ms more each time; an association another gateway holds without showing it always blocks; an honest service, where the gateways can be updated, lets it succeed if and only if the steps reach every association: with the first attempt when there is none, the third when the named gateway holds the engine and shows another one it is taken for, otherwise the second; the backoff is spent before it ends |
| PolicyTeardown.StepMakesProgress | source/lambda/tenant-deprovision-subscriber/teardown-workspace-policy-engine.ts:288-292 | What each rejected attempt and its unblocking step leave for the next one |
| PolicyTeardown.ClashTakesTwoHeals | source/lambda/tenant-deprovision-subscriber/teardown-workspace-policy-engine.ts:154-161 | A gateway that shows an engine whose arn contains this one's last segment keeps a hidden association through the first heal, and loses it with the second, unless that segment is blank |
| PolicyTeardown.HiddenBehindLongerId | source/lambda/tenant-deprovision-subscriber/teardown-workspace-policy-engine.ts:154-161 | The input that needs a third attempt: pe-10 shown and pe-1 hidden on one gateway |
| PolicyTeardown.DisassociateAndHeal | source/lambda/tenant-deprovision-subscriber/teardown-workspace-policy-engine.ts:328-342 | Swallows failures, touches only what it may; with an honest service and gateways that can be updated it leaves what the retries can delete if and only if no other gateway held an association without showing it, and the named one can be healed |
| PolicyTeardown.DisassociateFromAll | source/lambda/tenant-deprovision-subscriber/teardown-workspace-policy-engine.ts:163-192 | Across any paging, exactly the gateways whose shown arn is of the form before + id + after are detached; after a throw, exactly those reached |
| PolicyTeardown.Heal | source/lambda/tenant-deprovision-subscriber/teardown-workspace-policy-engine.ts:154-161 | Associate unless shown, then disassociate: the exact gateway left, and no other gateway changed |
| PolicyTeardown.Disassociate | source/lambda/tenant-deprovision-subscriber/teardown-workspace-policy-engine.ts:143-152 | The service drops the association it shows, and only that one |
| PolicyTeardown.Associate | source/lambda/tenant-deprovision-subscriber/teardown-workspace-policy-engine.ts:128-141 | The gateway shows and holds the engine; what a throw can leave |
| PolicyTeardown.WaitForGatewayReady | source/lambda/tenant-deprovision-subscriber/teardown-workspace-policy-engine.ts:71-97 | The first gateway read that is READY and shows an engine, or none, as expected, ends the wait, or the first read that throws; otherwise it fails once two minutes are up |
| PolicyTeardown.DeletePoliciesOnEngine | source/lambda/tenant-deprovision-subscriber/teardown-workspace-policy-engine.ts:215-235 | Across any paging of a list that shrinks while it is walked, all policies of the engine and no others are deleted |
| PolicyTeardown.WaitForPolicyEngineDeleted | source/lambda/tenant-deprovision-subscriber/teardown-workspace-policy-engine.ts:237-260 | Normal return exactly when a read finds nothing, and then the engine is gone; a failed deletion, another failure and the end of two minutes are errors |
| PolicyTeardown.FindPolicyEngineByName | source/lambda/tenant-deprovision-subscriber/teardown-workspace-policy-engine.ts:194-213 | An engine of that name, none exactly when no engine has it, across any paging |
| PolicyTeardown.ResolveGatewayId | source/lambda/tenant-deprovision-subscriber/teardown-workspace-policy-engine.ts:99-126 | A gateway with the name derived from the use case, none exactly when no gateway has it |
| PolicyTeardown.HealingUnblocks | source/lambda/tenant-deprovision-subscriber/teardown-workspace-policy-engine.ts:154-161 | Healing a gateway leaves no association at all if and only if no other gateway holds one and it does not hold the engine while showing another one it is taken for |
| PolicyTeardown.UnseenStays | source/lambda/tenant-deprovision-subscriber/teardown-workspace-policy-engine.ts:171-186 | An association another gateway holds without showing it survives every step of the teardown and blocks the deletion |
| PolicyTeardown.UnseenBehindLongerId | source/lambda/tenant-deprovision-subscriber/teardown-workspace-policy-engine.ts:179-186 | The input: another gateway shows pe-10 and holds pe-1; the walk for pe-1 detaches it from pe-10 only |
| PolicyTeardown.WalkAndHealLeave | source/lambda/tenant-deprovision-subscriber/teardown-workspace-policy-engine.ts:328-332 | What a completed walk and the heal of the named gateway leave can be deleted if and only if it was removable at the start |
| PolicyTeardown.LongerIdIsDetached | source/lambda/tenant-deprovision-subscriber/teardown-workspace-policy-engine.ts:179-186 | Any gateway that shows an engine whose arn contains this id loses that engine |
| PolicyTeardown.OthersUntouchedUnlessContained | source/lambda/tenant-deprovision-subscriber/teardown-workspace-policy-engine.ts:179-186 | After a completed walk the gateways not showing this engine are untouched if and only if no other engine's arn that a gateway shows contains this id |
| PolicyTeardown.DisassociateTakesLongerId | source/lambda/tenant-deprovision-subscriber/teardown-workspace-policy-engine.ts:163-192 | The walk for an engine takes any engine whose arn contains the id from the gateway that shows it |
| PolicyTeardown.EngineNamesDiffer | source/lambda/tenant-deprovision-subscriber/agentcore-policy/policy-engine-naming.ts:5-8 | Instances have different engines exactly when they differ in their first eight characters other than hyphens |
| PolicyTeardown.GatewayNamesDiffer | source/lambda/tenant-deprovision-subscriber/teardown-workspace-policy-engine.ts:31-33 | Use cases have different gateways exactly when they differ in their first eight characters |
| Strings.IncludesIsContains | source/lambda/tenant-deprovision-subscriber/teardown-workspace-policy-engine.ts:179-182 | A string includes another exactly when it is something before, that string, and something after |
| UseCaseLookup.FindUseCaseIdByName | source/lambda/tenant-provision-subscriber/provision-stack-probe.ts:83-132 | Whatever pages of at most 50 rows the table is served in, and whatever rows turn up between them: the answer is the id of the first match, or none, of a table between the one at the beginning and the one at the end. A row of that table has the id found, and the name, the tenant and the type, as far as they are asked for; when none is found, no row has all of these. It throws only where a request for a page fails |
| UseCaseLookup.ScanIsBetween | source/lambda/tenant-provision-subscriber/provision-stack-probe.ts:93-126 | What a scan is shown, with the rows that turn up in front of its cursor and without those behind it, lies between the two tables |
| UseCaseLookup.RowIsMissed | source/lambda/tenant-provision-subscriber/provision-stack-probe.ts:93-126 | A row that turns up behind the cursor is not shown |
| UseCaseLookup.RowIsAhead | source/lambda/tenant-provision-subscriber/provision-stack-probe.ts:93-126 | A row that turns up in front of the cursor is shown |
| UseCaseLookup.FoundIsEarliest | source/lambda/tenant-provision-subscriber/provision-stack-probe.ts:103-127 | The first match is the earliest matching row; there is one exactly when some row matches |
| UseCaseLookup.FirstMatchMoves | source/lambda/tenant-provision-subscriber/provision-stack-probe.ts:93-102 | However new rows mix with the others, the first match changes only to one of the new rows |
| UseCaseLookup.LeadStaysInside | source/lambda/tenant-provision-subscriber/provision-stack-probe.ts:93-127 | If the search leads into a set of use cases that holds also the rows on their way and those written, it keeps leading into it, wherever they turn up |
| UseCaseLookup.LeadIsSettled | source/lambda/tenant-provision-subscriber/provision-stack-probe.ts:93-127 | The search leads to one use case for good, wherever the rows on their way turn up, if and only if it does so now and none of them is another use case of the name |
| UseCaseLookup.OrderDecides | source/lambda/tenant-provision-subscriber/provision-stack-probe.ts:93-127 | With one row there and one on its way, both answers are possible for the next search |
| UseCaseLookup.FoundLeads | source/lambda/tenant-provision-subscriber/index.ts:230-254 | After a search that found a use case, later ones come to it or to one whose row was not there yet |
| UseCaseLookup.FoundIsDeployed | source/lambda/tenant-provision-subscriber/index.ts:498-505 | What is found after a deploy call is the use case it wrote if and only if the first match is no older row |
| UseCaseLookup.UniqueRowIsFound | source/lambda/tenant-provision-subscriber/provision-stack-probe.ts:83-132 | With one use case per name, tenant and type the search finds it |
| StackStatuses.ActiveByWords | source/lambda/templates-api/utils/constants.ts:32-32 | Active: CREATE or UPDATE and COMPLETE, and nothing else |
| StackStatuses.InProgressByWords | source/lambda/templates-api/utils/constants.ts:43-51 | In progress: begins with CREATE, UPDATE or ROLLBACK and ends in PROGRESS |
| StackStatuses.RollbackByWords | source/lambda/templates-api/template-testing.ts:329-339 | What a template test takes for a rollback has the word in it |
| StackStatuses.DeleteByWords | source/lambda/templates-api/template-testing.ts:329-339 | The same for a deletion |
| StackStatuses.FailedByWords | source/lambda/templates-api/utils/constants.ts:34-41 | Failed: ends in FAILED or ROLLBACK_COMPLETE, but for imports and the plain failed update |
| TenantProvision.DeployBehindStaleRow | source/lambda/tenant-provision-subscriber/index.ts:470-505 | With the row of a removed deployment as the first match, the lookup is about it or about a row that turns up in front; a stack found not resuming is deployed again; if the stale row is first when the name is resolved, the run names the removed use case and not the one it deployed |
| ProvisionPolling.Platform.GetDeploymentProbe | source/lambda/tenant-provision-subscriber/provision-stack-probe.ts:150-161 | The linked stack of the use case's row when it has a status, or else the stack expected by name if that has one; the latter is asked for only then, only with a name, and under the name and the first eight characters of the id |
| ProvisionPolling.ExpectedNamesDiffer | source/lambda/tenant-provision-subscriber/provision-stack-naming.ts:5-9 | Use cases of one name have different expected stacks exactly when their ids differ in the first eight characters |
| ProvisionPolling.WaitForUseCaseReady | source/lambda/tenant-provision-subscriber/provision-poll.ts:46-81 | The result is the verdict of the probes made, of which the last is the first decisive one: ready exactly when the last probe showed this use case active; at most ceil(budget / interval) probes, ending one interval and one probe past the budget at the latest; a time-out uses up the budget |
| ProvisionPolling.FirstDecisiveProbe | source/lambda/tenant-provision-subscriber/provision-poll.ts:56-63 | How one more probe moves the verdict |
| ProvisionPolling.ProbesFit | source/lambda/tenant-provision-subscriber/provision-poll.ts:52-75 | A budget m and an interval i leave room for at most m / i probes, rounded up |
| ProvisionPolling.WaitForGatewayUrl | source/lambda/tenant-provision-subscriber/provision-use-case-config.ts:53-71 | The first URL read that is not blank; none only when the budget is used up, and then every read was blank; ends within one interval and one read past the budget |
| ProvisionPolling.ResolveUseCaseIdByName | source/lambda/tenant-provision-subscriber/index.ts:230-254 | One to twelve attempts five seconds apart; found exactly when the last search came to a use case, none only after twelve in vain; what is found is the first match of the table as shown to the search |
| ProvisionPolling.FindResumableUseCase | source/lambda/tenant-provision-subscriber/index.ts:175-197 | An earlier deployment is taken up exactly when the one lookup finds, for the first matching row, a stack that is active, in progress or not linked; the lookup is recorded |
| ProvisionPolling.PollAgent | source/lambda/tenant-provision-subscriber/index.ts:513-514 | A poll begun t ms into the run ends by max(840000, t + 45000) + 20000 ms plus one probe, and times out no earlier than max(840000, t + 45000) |
| TenantProvision.LambdaHandler | source/lambda/tenant-provision-subscriber/index.ts:256-268 | Every run with version 2 attempts exactly one of: failed; started, failed; started, stack_complete, failed; started, stack_complete, runtime_ready - one terminal event, last, and about the use case of stack_complete; at most one deploy call per kind, and one exactly when that kind's lookup finds nothing to take up, whatever the stack does later; each lookup is about the use case its search leads to at the start, or one whose row was on its way, wherever and whenever rows turn up; the use case and the gateway of stack_complete have rows of the tenant; a request without a tenant fails at once; where no call failed the run ends as its last lookups and probes say: runtime_ready exactly when the last probe showed the agent active, failed before stack_complete only for a gateway shell that did not get up or after twelve searches in vain; and the gateway is the one the lookup took up, or none only without a body, after a failed call or after twelve searches in vain; the tenant's row is written first, and runtime_ready comes behind the synchronisation of its use case and no other |
| TenantProvision.HandleTwice | source/lambda/tenant-provision-subscriber/index.ts:175-197 | A request handled twice, after any time, with any table and rows turning up at any time: once the first run reached stack_complete, the second one's lookup is about the same use case, or one whose row was on its way when the first run began or written by it; where there is no such other one, as when the name was new, the second run deploys anew if and only if the lookup finds that stack removed or failed |
| TenantProvision.NamedIsOnly | source/lambda/tenant-provision-subscriber/index.ts:508-511 | After a run for a new name, or one that deployed no agent while no other use case of the name was on its way, the search leads to the use case of stack_complete for good |
| TenantProvision.NewNameIsDeployed | source/lambda/tenant-provision-subscriber/index.ts:500-511 | Where no row of the agent's name was there or on its way, stack_complete names the use case that this run deployed |
| TenantProvision.RunTenantProvision | source/lambda/tenant-provision-subscriber/index.ts:270-551 | The same up to a throw, which leaves room for the failed event of the handler |
| TenantProvision.ProvisionAgent | source/lambda/tenant-provision-subscriber/index.ts:295-551 | After started: the agent carries the gateway that the events name, and is given that one as a server or none; what is deployed and named is what the lookups found; no gateway is left out and no step fails without a reason in what was answered |
| TenantProvision.ProvisionBehindGateway | source/lambda/tenant-provision-subscriber/index.ts:421-551 | The part of the run behind the gateway: the same for the agent alone |
| TenantProvision.PrepareGateway | source/lambda/tenant-provision-subscriber/index.ts:305-420 | The gateway deploy call exactly when a body is built and the lookup finds nothing to take up; the gateway is the one found, and the agent is given it as a server exactly when a URL was read; an empty shell is passed on exactly when the last probe of the wait showed it active; a throw and a gateway left out have their reasons |
| TenantProvision.WaitForGateway | source/lambda/tenant-provision-subscriber/index.ts:362-420 | The wait: a shell has to be up first, within 300 s; then the URL is polled, within 120 s; a gateway without a URL is passed on without a server only when the time is up |
| TenantProvision.FindOrDeployGateway | source/lambda/tenant-provision-subscriber/index.ts:306-361 | With a body built, deployed exactly when the lookup finds nothing to take up, and otherwise the one found; after a deploy call it is the one just deployed exactly when the first match is no older row; none only without a body, or after a failed call or twelve searches in vain |
| TenantProvision.DeployOrResumeAgent | source/lambda/tenant-provision-subscriber/index.ts:470-506 | Deployed exactly when the lookup finds nothing to take up; with an answering search and probe, exactly when no row matches or the stack of the first match does not resume; after a deploy call the agent named is the one just deployed exactly when the first match is no older row; it fails only after a refused deployment or twelve searches in vain |
| TenantProvision.ProvisionWithGateway | source/lambda/tenant-provision-subscriber/index.ts:470-551 | stack_complete for the agent found, then one more event unless the run throws; from then on the search leads to that agent or to a newer row |
| TenantProvision.FinishAgent | source/lambda/tenant-provision-subscriber/index.ts:513-551 | runtime_ready only when the last probe showed the stack active, and then always unless a call failed; all probes are of this use case under its name |
| TenantProvision.NotifyProvisionStatus | source/lambda/tenant-provision-subscriber/index.ts:199-228 | Nothing is sent without an instance id, and sending never throws |
| OrchestratorProvision.HandleProvisionRequested | source/lambda/orchestrator-provision-subscriber/index.ts:276-299 | Exactly one of the four sequences for a request that names an orchestrator, failed at once exactly without a tenant or with more than ten members, failed after started without a body; at most one deploy call; where no call failed it is made, and the run ends as the searches and the last probe say; the use case named has a row of the tenant |
| OrchestratorProvision.RunOrchestratorProvision | source/lambda/orchestrator-provision-subscriber/index.ts:105-242 | The same up to a throw; stack_complete only after the deploy call, and for a new name about the use case it deployed |
| OrchestratorProvision.DeployWorkflowRun | source/lambda/orchestrator-provision-subscriber/index.ts:181-242 | From the deploy call on: one call, then at most stack_complete and one more event; without a failed call it fails before stack_complete only after twelve searches in vain, and ends with runtime_ready exactly when the last probe showed the stack active |
| OrchestratorProvision.FinishWorkflow | source/lambda/orchestrator-provision-subscriber/index.ts:205-242 | runtime_ready only when the last probe showed the stack active, and then always unless a call failed |
| OrchestratorProvision.FailsByWords | source/lambda/orchestrator-provision-subscriber/workflow-provision-poll.ts:155-157 | Failed: the status has the word FAILED, or is ROLLBACK_COMPLETE |
| OrchestratorProvision.WaitForWorkflowReady | source/lambda/orchestrator-provision-subscriber/workflow-provision-poll.ts:141-161 | The first probe that throws, is active or failed decides; otherwise the budget is used up; the probe count and the end as for the tenant poll |
| OrchestratorProvision.ResolveWorkflowUseCaseIdByName | source/lambda/orchestrator-provision-subscriber/workflow-provision-poll.ts:163-177 | One to twelve attempts five seconds apart; a search that throws ends it; none only after twelve in vain |
| TenantDeprovision.RunTenantDeprovision | source/lambda/tenant-deprovision-subscriber/run-tenant-deprovision.ts:23-157 | A normal return has sent started, the engine's teardown was tried, each kind's stack id looked up, its use case deleted and the deletion awaited when the request was accepted and the id is known, the agent's part only when the gateway's worked; then finished exactly when each request was accepted, or was for a gateway whose stack id is not known, and each wait answered deleted, and otherwise failed with the one error of the last action; a run throws only when a call did; only this tenant's engine is touched |
| TenantDeprovision.TearDownStacks | source/lambda/tenant-deprovision-subscriber/run-tenant-deprovision.ts:68-138 | The gateway's part, then the agent's, exactly while nothing went wrong; the agent's delete is asked for only once no stack is called by the last segment of the gateway's awaited stack id |
| TenantDeprovision.TearDownStack | source/lambda/tenant-deprovision-subscriber/run-tenant-deprovision.ts:68-104 | Each action in turn with its answer; no error exactly when the request was accepted, or was for a gateway without a known stack, and the wait, made exactly when accepted and the id is known, answered deleted; otherwise the error that the last action calls for |
| TenantDeprovision.WaitForStackDeletion | source/lambda/tenant-deprovision-subscriber/wait-for-stack-deletion.ts:45-79 | The first description that throws, says gone or names DELETE_FAILED decides, otherwise the budget is used up; deleted means that no stack is called by the last segment of the id, and when none is, the wait is over with the first description |
| TenantDeprovision.ConfirmedIsGone | source/lambda/tenant-deprovision-subscriber/wait-for-stack-deletion.ts:23-30 | A wait that answered deleted says of a stack that it is gone if and only if the last segment of its id is its name or all of its id |
| TenantDeprovision.AgentAskedBehindGateway | source/lambda/tenant-deprovision-subscriber/run-tenant-deprovision.ts:19-22 | The gateway's stack is gone when the agent's delete is asked for if that holds of its id, and for no other stack does it follow |
| TenantDeprovision.WholeIdIsNotAwaited | source/lambda/tenant-deprovision-subscriber/wait-for-stack-deletion.ts:23-30 | Of a whole stack id, prefix:stack/name/uuid, the wait asks for the uuid; it confirms that stack gone only where its name is its uuid |
| TenantDeprovision.StandingIsConfirmed | source/lambda/tenant-deprovision-subscriber/wait-for-stack-deletion.ts:45-50 | The input: a stack that stands and that the wait takes for gone |
| StackIds.WholeIdReads | source/lambda/orchestrator-provision-subscriber/workflow-provision-poll.ts:43-53 | Of a whole stack id the orchestrator worker reads the name, the tenant worker and the template tests read nothing (unless the stack is called stack), and the deprovisioning reads the uuid |
| TenantDeprovision.FinishedMeansWorked | source/lambda/tenant-deprovision-subscriber/run-tenant-deprovision.ts:115-157 | When finished is sent, the use cases asked for are those of the request and their requests were accepted, the gateway's unless its stack is not known |
| TenantDeprovision.HandleDeprovisionRequested | source/lambda/tenant-deprovision-subscriber/index.ts:157-188 | A request without an instance or a use case changes nothing; any other one is run |
| BatchLoop.HandleBatch | source/lambda/agentcore-invocation/handler.py:116-177 | Every record is exactly one of invoked and reported, failures a suffix of each block; attempts follow in turn; unless the first failing record of some block is off its attribute, no record is attempted twice and the report is the block-wise one; with time for a second attempt, some record is attempted twice if and only if there is such a block; every attempt is made with at least 20 s left and of a record that can be processed, a batch is cut off only where less is left, and invoked are exactly the records with an attempt that succeeded |
| BatchLoop.SameRecordAgain | source/lambda/agentcore-invocation/handler.py:158-171 | Neighbouring attempts are for the same record if and only if the first one failed and the record is off its attribute |
| BatchLoop.ReachedLoops | source/lambda/agentcore-invocation/handler.py:166-171 | A record reached after regular blocks that fails off its attribute is the first of its block to fail |
| BatchLoop.RetryIsEntered | source/lambda/agentcore-invocation/handler.py:166-171 | A failed attempt off the attribute leaves the loop at the same record |
| BatchLoop.ReportConnection | source/lambda/invoke-agent/handler.py:66-71 | The reported group is the maximal run of records on the connection |
| BatchLoop.FailureIsFair | source/lambda/invoke-agent/handler.py:60-71 | A failing group keeps it, and ends at a new block |
| BatchLoop.ReportIsExact | source/lambda/agentcore-invocation/handler.py:173-173 | With distinct message ids the report names exactly the records that were not invoked |
| BatchLoop.FairIsBlockwise | source/lambda/agentcore-invocation/handler.py:125-173 | Cut off at any record behind regular blocks, the batch reports what the block-wise specification reports |
| BatchLoop.InterleavedIsNotHeldBack | source/lambda/agentcore-invocation/handler.py:166-171 | With a record of another connection in between, the outcome of an earlier record makes no difference to a later one |
| StreamForwarding.ProcessStreamChunks | source/lambda/agentcore-invocation/handler.py:244-333 | On normal return: no error or malformed chunk before the first completion, the frames of the accepted chunks before it in order, and the counts are theirs, the websocket count the sum; otherwise a prefix of those frames; where no call raised, it ends as the stream says: an error chunk, a malformed one, a break, or normally |
| StreamForwarding.InvokeAgentCore | source/lambda/agentcore-invocation/handler.py:336-482 | On normal return the end token last, after the accepted frames or the quota notice, and as many messages as counted; keep-alive stopped on every path and no other one touched; unexpected errors are wrapped; where no call raised, the outcome is the one the stream calls for |
| StreamForwarding.Attempt | source/lambda/agentcore-invocation/handler.py:370-462 | Whatever is sent before a throw is a prefix of what a normal return sends |
| StreamForwarding.ForwardChunk | source/lambda/agentcore-invocation/handler.py:180-241 | One frame for an accepted chunk; it throws exactly for a chunk whose field is no dictionary, before anything is sent, or when a call raised |
| StreamForwarding.EndTokenOnce | source/lambda/agentcore-invocation/handler.py:422-423 | The end token is sent exactly once if and only if no content chunk spells it |
| StreamForwarding.FramesLength | source/lambda/agentcore-invocation/handler.py:272-297 | One frame for each chunk counted |
| StreamForwarding.FramesByKind | source/lambda/agentcore-invocation/handler.py:180-241 | What each kind of chunk is forwarded as, and which are dropped |
| StreamForwarding.FramesOfConcat | source/lambda/agentcore-invocation/handler.py:266-331 | The frames of two stretches of chunks are those of the first, then those of the second |
| StreamForwarding.OneMoreChunk | source/lambda/agentcore-invocation/handler.py:266-331 | What one chunk adds to the frames and the counts |
| InvokeLock.EveryStateIsExclusive | deployment/ecr/gaab-strands-workflow-agent/src/main.py:229-274 | In every reachable state the lock is held if and only if exactly one admitted invocation is unfinished; every ended one released it exactly once, no other ever |
| InvokeLock.StepKeepsExclusive | deployment/ecr/gaab-strands-workflow-agent/src/main.py:229-274 | Every single step keeps that |
| InvokeLock.RejectedWhenBusy | deployment/ecr/gaab-strands-workflow-agent/src/main.py:229-249 | An invocation is rejected exactly when an admitted one is unfinished, and stays rejected |
| InvokeLock.DroppedStreamLeaks | deployment/ecr/gaab-strands-workflow-agent/src/main.py:254-260 | A stream dropped before it was started leaks the lock: every later invocation is rejected |
| InvokeLock.FreeUnlessDropped | deployment/ecr/gaab-strands-workflow-agent/src/main.py:254-274 | When everything admitted has ended or was dropped, the lock is free if and only if nothing was dropped |
| InvokeLock.Runtime.Admit | deployment/ecr/gaab-strands-workflow-agent/src/main.py:229-260 | Busy exactly when the lock was held, otherwise a stream or a result as asked for; the step of the transition system |
| InvokeLock.Runtime.CallAgent | deployment/ecr/gaab-strands-workflow-agent/src/main.py:264-274 | Releases the lock it holds, whether the agent answers or raises |
| InvokeLock.Runtime.FinishStream | deployment/ecr/gaab-strands-workflow-agent/src/main.py:254-258 | Releases the lock it holds when a started stream ends |
| InvokeLock.Runtime.DropStream | deployment/ecr/gaab-strands-workflow-agent/src/main.py:254-260 | Releases nothing |
| StackNames.SanitizedIsStackName | source/lambda/tenant-provision-subscriber/sanitize-cfn-stack-name.ts:4-17 | For any input and any limit of at least 1: a letter, then letters, digits and hyphens, within the limit, without a double hyphen |
| StackNames.NormalizeJoinsWords | source/lambda/tenant-provision-subscriber/sanitize-cfn-stack-name.ts:9-15 | The chain of replacements is a one-pass join: the letters and digits in order, one hyphen where anything else stood between them |
| StackNames.IdempotentUnlessCutAtHyphen | source/lambda/tenant-provision-subscriber/sanitize-cfn-stack-name.ts:8-17 | Sanitising twice is sanitising once, if and only if the cut leaves no hyphen at the end |
| StackNames.AgentNamesDistinct | source/lambda/tenant-provision-subscriber/index.ts:141-148 | Names of two instances differ if and only if the first difference of their suffixes survives the cut at 200 |
| StackNames.ShortBasesKeepNamesDistinct | source/lambda/tenant-provision-subscriber/index.ts:141-148 | Distinct eight-character suffixes stay distinct behind a base of at most 191 characters |
| StackNames.SuffixIsFirstEight | source/lambda/tenant-provision-subscriber/index.ts:143-143 | The suffix is the instance id's first eight letters or digits |
| StackNames.NamesShow | source/lambda/tenant-provision-subscriber/index.ts:141-157 | Where nothing is cut off, the agent is called base-suffix and the gateway AIW-Tools-base-suffix |
| StackNames.BaseShows | source/lambda/tenant-provision-subscriber/index.ts:142-142 | A name of letters and digits is its own base, with an A in front of a digit; a blank one has the base Agent |
| StackNames.GatewayNamesDistinct | source/lambda/tenant-provision-subscriber/index.ts:150-157 | Gateway names are cut earlier: they differ if and only if the first difference comes eleven characters before 200 minus the base |
| StackNames.CutsAgree | source/lambda/tenant-provision-subscriber/index.ts:145-154 | Cut strings with a common start agree exactly when the cut comes before their first difference |

## Left out

- Stack definitions, build scripts, both user interfaces and SDK transport: no algorithm to state.
- JWT verification, ARN matching and policy lookup: the deciding functions are not part of this model.
- The runtime environment synchronisation and the Figma and GitHub patches: map merges over constants; a run sees them as one call that may throw.
- The published template list by index key, `itemToApi` and the cursor encoding: data formatting.
- `validateSubscriptionCommercial` and its price line: the token-based twin of the session check, with no reader to agree with.
- The text of error messages and price lines beyond amount, currency and session count.
- Concurrent template operations: the code reads and then writes without conditions, so nothing could be promised of interleavings.
- That published devops is what the test stack ran: the code does not ensure it, since a refresh turns stale back into active and a deployment can be adopted by name.
- The deletion of the test stack after cancel, restart and publish: best effort, and it changes no item.
- The policy detach and the engine teardown events, the orchestrator's deprovisioning and `SyncAllWorkflowRuntimes`: single calls around what is modelled.
- The channel of the orchestrator's events: every event of a run goes to the one chosen from the request.
- TemplateLifecycle.TemplateStore.Write: after a failed write promises no more than that the item is as it was or as written, because a call may throw after it took effect.
- TemplateLifecycle.TemplateStore.CreateTemplate: the default devops document and the catalog merge are parameters, because they only format.
- ProvisionPolling.ResolveUseCaseIdByName: does not bound the time of the searches, because only probes are bounded.
- TenantProvision.LambdaHandler: does not bound the whole run, because deploy calls take any time; `PollAgent` bounds the poll from wherever it begins.
- TenantProvision.HandleTwice: the second run begins after the first has ended; two at once can both find nothing and both deploy.
- TemplateLifecycle.TemplateStore.PublishTemplate: takes the filled marketing and its check as parameters; `TemplatePublishing.PublishStored` computes both.
- Time-outs of the keep-alive threads.
