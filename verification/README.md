# Verification model of the ecommerce backend

The backend keeps products, their assets, listing versions and export tasks,
generates images through an asynchronous platform runtime, charges for what it
does, takes orders, reports charges to a channel, and seeds a template
catalogue. This project models the protocols under those features and proves
what they keep over whole runs.

The database is a set of maps from ids to rows, and every id order is the
primary-key order. The platform is a ledger, or a record of answers that says
for each call whether it succeeded, was refused, or took effect although it
reported an error. A service method that changes rows is a method over mutable
fields, proved equal to a function of the state before it; the results below
are about those functions. A write that may fail has a flag, so that the state
between two writes is the result of a step whose next write failed.

| file | contents |
|---|---|
| Options.dfy, Text.dfy | optional values; trimming, case and defaulting of texts |
| BillingGate.dfy | the charge gate before the platform ledger, and a row billed behind it |
| ProductCenter.dfy | tables, recounts, derived statuses, the transition table |
| ProductAssets.dfy | asset relations, governance batches, archiving of results |
| Listings.dfy, ListingBatches.dfy | listing versions, their batches and previews, adoption |
| Exports.dfy | export tasks and packages |
| ProductHistory.dfy, ProductStatuses.dfy | runs of all product-centre calls: what publication rests on, what keeps statuses in step |
| ImageJobs.dfy, ImageResults.dfy | the image job row, result callbacks, settlement |
| Redelivery.dfy | repeated and interrupted deliveries of results |
| JobInterleaving.dfy, JobMetadata.dfy | callbacks between the steps of job creation, and the metadata they add |
| Orders.dfy, Credits.dfy | payment and fulfilment of orders; cents to credits in 64 bits |
| Outbox.dfy | channel reports and their replay |
| TemplateSeed.dfy, TemplateRows.dfy, TemplateRuns.dfy | reconciliation of the template catalogue with its seed, whose rows it writes, and running it again |
| StageView.dfy | stage view, overall readiness, verdict and release readiness |
| NegativePrompts.dfy | splitting and joining of negative prompts |

`dafny verify dfyconfig.toml` checks everything.

Claims that turn out false of the code are kept as lemmas: one with an input that
shows it, and one with the exact condition under which the code does meet it.

- Metadata added between the creator's read and write is lost
  (`MetadataBetweenReadAndWriteIsLost`; `MetadataSurvivesIff`).
- A finished job does not keep its status: a report padded with spaces is stored
  as it came, and the job can then be cancelled (`PaddedJobIsCanceled`;
  `EndedStaysIff`).
- A repeated delivery may select another asset when variants share an index
  (`SharedIndexChangesSelection`; `SelectionsDifferIff`).
- A debit booked behind an error is repeated (`LostDebitIsRepeated`;
  `DebitsAreAccountedFor`).
- A reservation made behind an error of the reserve call is never released
  (`LostReserveStaysOpen`; `BillRowConserves`).
- A report is lost when neither platform nor outbox takes it
  (`RefusedReportIsLost`; `ReportIsLostIff`).
- A second seeding is not a no-op on all tables (`OrphanIsTakenOverAndDeleted`;
  `SecondRunIff`), though a third is (`FixedAfterTwoRuns`). The example that
  waits for its version is written by nothing in the repository: the seed in
  internal/modules/templatecenter/seed.go and this reconciliation are the only
  writers, and they delete examples together with their version
  (`SecondRunIsIdle`).
- The version a usage row names may go (`UsageVersionGoes`;
  `UsageVersionStaysIff`).
- Deleting a relation through another product can leave its owner's status
  behind (`StatusIsLeftBehind`; `DeleteElsewhereMayDrift`).
- Failed demotions and saves break uniqueness of adopted versions
  (`FailingAdoptions`; `AdoptKeepsUniqueIff`, `AdoptLosesIff`).

The chain from release pass to overall ready (`ReleaseChain`) holds for every
status the services store (`StoredStatusIsDeclared`). It is stated for these
because it needs them: `CapitalisedJobStatus` is a text that is never stored.

## Model

| member | source | states |
|---|---|---|
| `JobInterleaving.InterleavingIsInvisible` | internal/modules/imageruntime/service.go:244-260 | for every interleaving of the creator's read, bind and write with runtime, result and cancel callbacks that leave the reserved metadata alone, the world is the one the callbacks alone produce, up to the runtime and provider job ids, unreserved metadata and session statuses |
| `JobInterleaving.CallbacksDecide` | internal/modules/imageruntime/service.go:244-260 | at the end status, stage, message, progress, error fields, selected asset, assets, charges and store are those of the callbacks alone; at every point the session and reservation ids can be read from the row; after the creator's write the runtime job id is bound |
| `JobInterleaving.CreatorFinishes` | internal/modules/imageruntime/service.go:244-260 | three successful creator steps, wherever they fall between the callbacks, end with the binding written |
| `JobInterleaving.CreatorIsInvisible` | internal/repository/image_runtime_repository.go:35-44 | the partial column write leaves every column a callback decides as it is |
| `JobInterleaving.HandleAlike` | internal/modules/imageruntime/service.go:320-441 | a callback cannot tell two worlds apart that differ only in what the creator writes |
| `JobInterleaving.BindingKeepsReserved` | internal/modules/imageruntime/billing.go:49-68 | binding the charge context writes back the values the job was created with |
| `JobMetadata.MetadataSurvivesIff` | internal/modules/imageruntime/service.go:244-260 | for every interleaving and every metadata key but the cancellation error and the provider code: the row shows what the callbacks alone would leave under the key iff the creator has not written, or no callback wrote the key between the read and the write, or a later one wrote it again, or the last write there repeated what the creator had read |
| `JobMetadata.KeptIff` | internal/modules/imageruntime/service.go:244-260 | the same for every key, the cancellation error and the settlement failure keys included, against all that callbacks and binding added in the order they came; before the creator's write nothing is lost |
| `JobMetadata.KeptIsTheCallbacks` | internal/modules/imageruntime/service.go:244-441 | what callbacks add in an interleaving is what they would add alone |
| `JobMetadata.HandleWrites` | internal/modules/imageruntime/service.go:274-441 | a callback only adds to the metadata, and exactly this |
| `JobMetadata.MetadataBetweenReadAndWriteIsLost` | internal/modules/imageruntime/service.go:246-256 | an input for the loss: a new key added between the creator's read and its write is gone, although the callback alone would have kept it |
| `ImageJobs.EndedStaysIff` | internal/modules/imageruntime/service.go:274-330 | over every sequence of runtime reports and cancellations a finished job shows its status all along iff none of the reports repeats that status with spaces around it |
| `ImageJobs.PaddedJobIsCanceled` | internal/modules/imageruntime/service.go:281-331 | an input for the break: a completed job reported as completed with a leading space is then cancelled, with completion and cancellation time both set |
| `ImageJobs.AcceptedRowReports` | internal/modules/imageruntime/service.go:274-318 | the row after an accepted runtime report, column by column: what was given is shown, what was not is kept, the failed stage and message stand in where both are blank, and completion and cancellation time agree with the status |
| `ImageJobs.AcceptedRowProgresses` | internal/modules/imageruntime/helpers.go:17-45 | its progress is the given percentage brought between 0 and 100, 100 when completed, and its metadata are the old ones under the given ones |
| `ImageJobs.RefusedReport` | internal/modules/imageruntime/service.go:281-287 | a report is accepted iff the job has not ended or the trimmed text repeats the stored status; any other changes nothing and releases nothing |
| `ImageJobs.CancellationReports` | internal/modules/imageruntime/service.go:320-375 | a cancellation ends every job that has not ended, keeps its columns but status, stage, message, progress and time, and notes the platform's complaint |
| `ImageResults.ImageRuntime.RecordJobResults` | internal/modules/imageruntime/service.go:377-441 | the row, assets, links, ledger and charge rows after the call, and the returned row, are those of RecordResults |
| `ImageResults.ImageRuntime.DeliverVariants` | internal/modules/imageruntime/service.go:404-417 | the loop over variants, stopping at the first error, leaves what Deliver describes |
| `ImageResults.ImageRuntime.FindOrCreateResultAsset` | internal/modules/imageruntime/billing.go:85-132 | the asset found by result key, else by storage key, else a new one; an error exactly when creation was needed and failed |
| `ImageResults.VariantReports` | internal/modules/imageruntime/billing.go:85-132 | one variant: it stands for the first asset generated for its index, or else the first under its storage key, or becomes a new one with its source, key and index; that asset is linked to the job's product, and selected when it is flagged or, while none is, the first; an error selects nothing |
| `ImageResults.ImageRuntime.FinalizeChargeForJob` | internal/modules/imageruntime/billing.go:134-181 | no session settles nothing, a completed job is committed and its charge persisted, any other is released |
| `ImageResults.CompletedMeansSettled` | internal/modules/imageruntime/service.go:377-441 | with a charge session in the merged metadata the returned row is completed iff that was asked for, both platform calls succeeded and the reservation was there to be consumed, or had been before; the job is then settled and its session shown as settled; otherwise a completed request comes back failed/metering_failed without selected asset and completion time |
| `ImageResults.ResultsLedger` | internal/modules/imageruntime/billing.go:134-181 | the ledger after a call that saved its row, for a job whose merged metadata name a session. Not completed: the release of its reservation is requested exactly once; if it takes and the reservation was open, it is released and its unit available again; the session is closed if that update takes. Completed: no release is requested; the unit is consumed once unless the job was settled before, and the session settled unless the caller saw an error. Every other reservation, session and count stays |
| `ImageResults.RuntimeLedger` | internal/modules/imageruntime/service.go:302-318 | an accepted runtime report that makes the job failed gives its charge up in the same way; any other leaves the ledger alone |
| `ImageResults.OtherwiseLedgerStays` | internal/modules/imageruntime/billing.go:134-140 | a result callback that saves no row, or is about a job without a charge session, leaves the ledger alone |
| `ImageResults.ResultsRow` | internal/modules/imageruntime/service.go:377-441 | the row saved and returned, column by column: as the callback reports it, with the last selected asset; withheld when the charge of a completed job could not be settled; one charge row for a settled completed job, once per event; nothing at all when a variant or the row could not be saved |
| `ImageResults.OtherCallsReport` | internal/modules/imageruntime/service.go:274-375 | a runtime report or a cancellation writes the row of its job and nothing else but the ledger; an unknown job is an error |
| `ImageResults.ResultsSettleOnce` | internal/modules/imageruntime/billing.go:150-210 | one callback consumes at most one unit for its job, none if the job was settled before, and keeps charge event ids unique |
| `ImageResults.SettledAtMostOnce` | internal/billinggate/service.go:232-291 | over any sequence of result callbacks with any answers at most one unit is consumed for the job and no two charge rows share an event id |
| `Redelivery.AttemptsConverge` | internal/modules/imageruntime/service.go:403-417 | whatever variants share an index: after any number of failed deliveries, one that succeeds leaves the assets of one undisturbed delivery and links the same assets, row by row when indices are distinct, and one that fails leaves a state from which this still holds |
| `Redelivery.AttemptsInARow` | internal/modules/imageruntime/service.go:377-417 | over any sequence of attempts with any failures: from the first success on, assets and linked assets are those of one undisturbed delivery |
| `Redelivery.AttemptResumes` | internal/modules/imageruntime/service.go:546-596 | delivering again does nothing up to where the failed attempt came, continues the undisturbed delivery from there, and wherever it fails stands between two consecutive states of it |
| `Redelivery.CompletedDeliverySettlesAll` | internal/modules/imageruntime/billing.go:85-132 | after a completed delivery of traceable variants, shared indices included, each variant finds its asset, and that asset is linked to the product |
| `Redelivery.RedeliveryAddsNothing` | internal/modules/imageruntime/service.go:559-563 | from then on no delivery, successful or not, adds an asset or a product relation |
| `Redelivery.SelectionIff` | internal/modules/imageruntime/service.go:403-417 | however far failed deliveries came before: a successful delivery selects the asset one undisturbed delivery selects iff the chosen variant (the last flagged selected, or else the first) has no twin among the variants that had their assets already, a twin being a later generated variant of the same index that neither key nor storage finds, while the chosen one's own asset is not under its result key |
| `Redelivery.SelectionsDifferIff` | internal/modules/imageruntime/service.go:403-417 | two successful deliveries, wherever failed ones came to before each, select different assets iff the twin had its asset before the one and not before the other |
| `Redelivery.PartialReaches` | internal/modules/imageruntime/billing.go:85-132 | every state failed deliveries leave has the assets of some first variants of the undisturbed delivery |
| `Redelivery.DistinctHaveNoTwin` | internal/modules/imageruntime/billing.go:85-93 | with distinct indices no variant has a twin, so the selection never changes |
| `Redelivery.ReselectionIff` | internal/modules/imageruntime/service.go:403-417 | a redelivery selects another asset than the completed delivery before it iff the chosen variant's asset was neither found nor created under its result key and a later generated variant of the same index was found by neither key nor storage |
| `Redelivery.NoTwinKeepsAsset` | internal/modules/imageruntime/billing.go:85-132 | without such a twin a variant keeps finding the asset it got |
| `Redelivery.ResultsConverge` | internal/modules/imageruntime/service.go:377-441 | the same for whole calls: any call leaves a state that converges, and one that returns a row has completed the delivery |
| `Redelivery.SharedIndexChangesSelection` | internal/modules/imageruntime/billing.go:85-93 | an input for another selection: two variants of one index, the first found by its storage key |
| `Redelivery.FoundStaysFound` | internal/repository/image_runtime_repository.go:84-105 | an asset appended for another variant index, or to a variant found by its result key, never changes which asset a lookup finds |
| `BillingGate.BillRowReleasesOnce` | internal/modules/productcore/service_part2.go:254-278 | a billed row is reported created iff every call up to the settled update succeeded; every error after the reservation requests its release exactly once, success never |
| `BillingGate.BillRowLedger` | internal/billinggate/service.go:138-316 | the whole ledger after a billed row, by the answers it got: units, reservation, settlement, release requests, and the session's last status (opened, reserved, settled or closed); and the stage each answer ends in |
| `BillingGate.BillRowConserves` | internal/billinggate/service.go:138-316 | granted = available + consumed + reserved is kept, and the reservations open afterwards are exactly those before and what the row leaves: a reservation made behind an error of the reserve call, or its own when the release was refused and nothing had finalized it |
| `BillingGate.LostReserveStaysOpen` | internal/billinggate/service.go:138-209 | an input that leaves one open: the platform reserves behind an error, and nothing asks for the release |
| `ProductCenter.ProductCore.UpdateAssetStatus` | internal/modules/productcore/service_part2.go:167-201 | the flag loop over the product's relations computes the recount |
| `ProductCenter.ProductCore.UpdateListingStatus` | internal/modules/productcore/service_part3.go:91-120 | the loop over the product's versions computes the recount |
| `ProductCenter.SyncIsAssetThenMain` | internal/modules/imageruntime/service.go:598-632 | the image runtime's single write has exactly the effect of the asset update followed by the main update, whose outcome RefreshAssetsRepairs and StatusFromRows say |
| `ProductCenter.RefreshAssetsRepairs` | internal/modules/productcore/service_part2.go:167-201 | whatever the drift: afterwards the asset status is ready iff a hero and a model shot are linked and missing iff nothing is; the main status, unless published or archived, is the one of the table export_ready iff all three are ready, listing_ready iff assets and listing are and the export is not, assets_ready iff the assets are and the listing is not, draft otherwise; and only statuses of that product change |
| `ProductCenter.RefreshListingRepairs` | internal/modules/productcore/service_part3.go:91-120 | the same for the listing status: ready iff a version is adopted, missing iff there is none |
| `ProductCenter.PreparationShows` | internal/modules/productcore/service_part3.go:250-262 | a prepared export shows and the main status follows by the same table |
| `ProductCenter.StatusFromRows` | internal/modules/productcore/service.go:148-181 | so a product neither published nor archived is draft without a hero and a model shot, else assets_ready without an adopted version, else export_ready iff its export is prepared, else listing_ready |
| `ProductCenter.ManualChangeIff` | internal/modules/productcore/service.go:103-145 | a status is set by hand iff the transition table lists the change and the product has the rows it asks for; nothing else changes |
| `ProductCenter.FoundBySku` | internal/repository/productcenter_repository.go:38-45 | a product is found by SKU iff one has the trimmed text, and then the first in key order |
| `ProductCenter.RemovalIsComplete` | internal/repository/productcenter_repository.go:67-97 | a deleted product leaves no relation, version or export task behind, and every other row stays |
| `ProductCenter.EditReports` | internal/modules/productcore/service.go:616-657 | an edit changes the texts that were given and nothing else |
| `ProductCenter.LeastExists` | internal/repository/productcenter_repository.go:38-44 | a nonempty set of matching rows has a first one in primary-key order |
| `ProductAssets.BatchUpdateGovernance` | internal/modules/productcore/asset_library_service.go:68-93 | the loop applies the patch to each sanitized id and counts |
| `ProductAssets.AddReports` | internal/modules/productcore/service_part2.go:36-93 | the first thing that is wrong is what an addition is refused for; a stored one has the columns given, and clears the product's other primaries iff it is primary |
| `ProductAssets.UpdateReports` | internal/modules/productcore/service_part2.go:95-147 | the same for a change: the columns given are shown, the others kept |
| `ProductAssets.GovernReports` | internal/modules/productcore/asset_library_service.go:104-158 | governance goes by the relation alone, leaves its kind and recounts nothing |
| `ProductAssets.ArchiveReports` | internal/modules/imageruntime/service.go:546-596 | a result is linked unless it is already, with its role and index, primary iff it was selected and the product has none |
| `ProductAssets.DeleteReports` | internal/modules/productcore/service_part2.go:149-164 | a deletion removes the relation of that id and no other, whichever product owns it, unless its write fails |
| `ProductAssets.RefreshReports` | internal/modules/productcore/service_part2.go:167-201 | after a change of assets: a status whose write fails stays as it was, the others follow the rows |
| `ProductAssets.StepKeepsSound` | internal/repository/productcenter_repository.go:147-155 | no step, whichever of its writes fail, leaves a product with two primaries or an asset linked twice |
| `ProductAssets.RunKeepsSound` | internal/modules/productcore/service_part2.go:58-136 | the same over every run of steps |
| `ProductAssets.WriteKeepsSound` | internal/repository/productcenter_repository.go:138-155 | clearing before writing keeps one primary at every point between the writes |
| `ProductAssets.BatchAccounting` | internal/modules/productcore/asset_library_service.go:68-93 | refused iff no id is given, more than 100 are, or a primary flag goes to more than one, and then nothing changes; any other batch answers each given id in order, and succeeded is the number of answers that are done |
| `ProductAssets.DeleteThroughOwnerKeepsAllInStep` | internal/modules/productcore/service_part2.go:149-164 | deleting through the owning product keeps every product in step |
| `ProductAssets.DeleteElsewhereMayDrift` | internal/repository/productcenter_repository.go:98-100 | deleting through another product leaves the owner in step iff the relation was neither its last one nor the last of a needed role of an owner that had both |
| `ProductAssets.StatusIsLeftBehind` | internal/modules/productcore/service_part2.go:149-164 | an input for the drift: another product deletes the owner's only relation, and the owner stays partial |
| `Listings.NextNumber` | internal/repository/productcenter_repository.go:364-368 | the loop computes one more than the largest live number |
| `Listings.BillListing` | internal/modules/productcore/service_part2.go:250-287 | reserve, insert, mark, commit, with a release on each error, then both statuses |
| `Listings.CreateListingVersion` | internal/modules/productcore/service_part2.go:218-287 | normalise, validate, number, preview or bill: the whole new state and reply |
| `Listings.AdoptListingVersion` | internal/modules/productcore/service_part2.go:472-514 | the demotion loop and the adoption, with any demotion writes failing |
| `Listings.AdoptLeavesOne` | internal/modules/productcore/service_part2.go:492-503 | adoption leaves exactly the target adopted and other products untouched |
| `Listings.CreateKeepsNumbers` | internal/modules/productcore/service_part2.go:232-233 | a new version gets a number larger than every live one of its product |
| `Listings.AdoptKeepsUniqueIff` | internal/modules/productcore/service_part2.go:492-503 | with failing writes uniqueness survives iff no other adopted version keeps its mark while the target gets it |
| `Listings.AdoptLosesIff` | internal/modules/productcore/service_part2.go:492-506 | with failing writes the product loses its adopted version iff the old one was demoted and the new one not saved |
| `Listings.FailingAdoptions` | internal/modules/productcore/service_part2.go:492-506 | an input for both: of two versions both end adopted when the demotion is lost, and neither when the save is |
| `Listings.CreationIsCharged` | internal/modules/productcore/service_part2.go:250-278 | a valid version is created iff units were available and every answer was good; any later failure requests its release once |
| `Listings.CreationReports` | internal/modules/productcore/service_part2.go:218-287 | a creation or preview is refused iff the given text or the product has a fault, with the first fault in order (twelve of them, each stated on the text as given: blank or too long after trimming, more than five bullets left, no SKU, no assets, a listed word in any case), and then changes nothing; otherwise the row has the trimmed texts, draft status and one more than the largest live number, and a preview changes nothing |
| `Listings.SensitiveMeans` | internal/modules/productcore/service_part2.go:337-342 | a text is sensitive iff a listed word occurs in the title, the description, a bullet or a keyword, whatever its case |
| `Listings.AdoptionReports` | internal/modules/productcore/service_part2.go:472-514 | an adoption is refused iff the version is not a live one of the product; the version adopted gets its mark, other adopted versions become ready unless their write is lost, and no other column or row changes |
| `Listings.DeletionReports` | internal/modules/productcore/service_part3.go:18-52 | only an adopted version is refused; otherwise the product's version goes and nothing else does |
| `ListingBatches.BatchCreateListingVersions` | internal/modules/productcore/service_part2.go:386-462 | the loop with its seen set answers each entry and counts |
| `ListingBatches.BatchAdoptListingVersions` | internal/modules/productcore/service_part2.go:516-574 | the loop with its seen set answers each entry |
| `ListingBatches.EntryReports` | internal/modules/productcore/service_part2.go:402-446 | why an entry is turned down: no key; a SKU that is not the product's, whatever its case; no such product; a product met before. One turned down changes nothing; any other is a creation for the product it names by id, or else by SKU |
| `ListingBatches.EqualFoldIff` | internal/modules/productcore/service_part2.go:419-419 | SKUs agree iff they do letter by letter up to case |
| `ListingBatches.AdoptEntryReports` | internal/modules/productcore/service_part2.go:516-574 | why an adoption is turned down; any other is adopted iff it is a live version of the product, which then has no other adopted one |
| `ListingBatches.PreviewPredictsBatch` | internal/modules/productcore/service_part2.go:386-462 | when billing and writes succeed, preview and batch agree entry by entry on success, product, name, number and text; the preview changes nothing |
| `ListingBatches.CreationAgrees` | internal/modules/productcore/service_part2.go:218-287 | a preview shows the very row the creation stores, although earlier entries were created in between |
| `ListingBatches.BatchLeavesExactly` | internal/modules/productcore/service_part2.go:386-462 | whatever fails, the units are conserved and the reservations a batch leaves open are exactly those lost behind an error of the reserve call and those whose release was refused |
| `ListingBatches.BatchLeavesNothingOpen` | internal/modules/productcore/service_part2.go:254-278 | so with no lost reserve and no refused release it leaves none, whatever else fails |
| `ListingBatches.BatchAdoptionsLast` | internal/modules/productcore/service_part2.go:516-574 | every adoption a batch reports is its product's only adopted version at the end of the batch |
| `Exports.BuildAssetManifest` | internal/modules/productcore/service.go:311-362 | the crossing-off loop keeps the chosen relations of the product, or tells a foreign one from none at all |
| `Exports.BillTask` | internal/modules/productcore/service_part3.go:207-262 | reserve, insert, mark, commit, with a release on each error, then export and main status |
| `Exports.CreateExportTask` | internal/modules/productcore/service_part3.go:184-262 | manifest, adopted version, billing: the whole new state and reply |
| `Exports.CreateExportPackage` | internal/modules/productcore/service_part3.go:405-510 | the loop and the assembled package |
| `Exports.TaskIsCharged` | internal/modules/productcore/service_part3.go:184-249 | a task is created iff product, manifest and adopted version are there, units were available and every answer was good; its manifest and version are the product's; any later failure requests its release once |
| `Exports.TaskReports` | internal/modules/productcore/service_part3.go:184-262 | what is missing is told iff it is: the product, an asset asked for that is not its own, any asset, an adopted version for the market; the export task made has exactly the assets asked for (all when none are), the first version adopted for the market, and its name |
| `Exports.BlockersIff` | internal/modules/productcore/service_part3.go:284-312 | why an item of a package is not tried, each blocker on the rows |
| `Exports.TaskStatusReports` | internal/modules/productcore/service_part3.go:513-563 | a task of the product takes the status given, and success makes the product's export status ready |
| `Exports.PackageIsConserved` | internal/modules/productcore/service_part3.go:405-482 | results match items in number, succeeded + failed = total, status by the counts, manifest products and blockers number exactly succeeded and failed, no product succeeds twice |
| `Exports.ResultsMatchItems` | internal/modules/productcore/service_part3.go:427-466 | each result is about the product its own item names |
| `Exports.PackageTasksStand` | internal/modules/productcore/service_part3.go:449-466 | the export task of every success is in the table, succeeded, for the result's product, and in the package unless it could not be attached |
| `Exports.PackageLeavesExactly` | internal/modules/productcore/service_part3.go:405-482 | whatever fails, the units are conserved and the reservations a package leaves open are exactly those lost behind an error of the reserve call and those whose release was refused |
| `Exports.PackageLeavesNothingOpen` | internal/modules/productcore/service_part3.go:207-249 | so with no lost reserve and no refused release it leaves none, whatever else fails |
| `ProductHistory.PublishedWasEarned` | internal/modules/productcore/service.go:659-681 | in every run a product becomes published by a manual step from export_ready only, and since its creation had an asset relation, an adopted version and a succeeded export task |
| `ProductHistory.StepFollows` | internal/modules/productcore/service.go:148-181 | every other call moves sub-statuses only with the rows they count, and the main status, unless published or archived, only to the one of the table export_ready, listing_ready, assets_ready, draft by the sub-statuses after the call |
| `ProductHistory.RunStaysBacked` | internal/modules/productcore/service_part3.go:54-88 | in every run each status rests on milestones the product has reached since its creation |
| `ProductHistory.OnlyManualStepPublishes` | internal/modules/productcore/service.go:103-145 | no automatic change and no creation publishes |
| `ProductHistory.RunKeepsVersions` | internal/modules/productcore/service_part2.go:472-514 | in every run of product-centre calls with unused version ids, where a saved adoption demotes every other adopted version, at most one version per product is adopted and live version numbers are distinct |
| `ProductHistory.RunKeepsReady` | internal/modules/productcore/service_part3.go:91-120 | in such a run a product with an adopted version keeps exactly one, and its recounted listing status stays ready, as long as no step deletes it or demotes its version without saving another |
| `ProductHistory.StepKeepsAdopted` | internal/modules/productcore/service_part2.go:492-506 | a product keeps an adopted version through a step iff the step neither deletes it nor demotes its adopted version without saving another |
| `ProductStatuses.RunKeepsInStep` | internal/modules/productcore/service_part2.go:36-201 | in every run whose calls go through (writes and recounts succeed, an inserted version is paid for, governance keeps roles, no product deletes a relation another one needs) the asset and listing status of every product are what its rows count up to |
| `ProductStatuses.ReturnedCallFits` | internal/modules/productcore/service.go:148-181 | in any state, whatever failed before: an asset, listing or export call that returns without an error leaves the statuses it recomputes and the main status exactly what the rows make of them |
| `ProductStatuses.RunKeepsOwned` | internal/repository/productcenter_repository.go:67-100 | in every run, whatever fails, each relation and listing version has its product |
| `Orders.CommercialService.AssignPackageToOrder` | internal/modules/commercial/service.go:346-401 | the loop grants active policies with positive units in order up to the first failing grant |
| `Orders.ConfirmKeepsInv` | internal/modules/commercial/service.go:187-329 | one call keeps the row invariant, never moves the status back, and changes debits and payments together except for lost debits; what it debits is CallDebitsRight |
| `Orders.OrderIsDebitedRight` | internal/modules/commercial/service.go:128-143 | from the creation of an order on, over any sequence of retries whatever fails: the total is unit amount times quantity (one when none is given), every debit is the total in cents of the cash balance, or the least n with 10 n at or above the total of the wallet or reward credits, and every payment row shows the amount of such a debit and its currency |
| `Orders.CallDebitsRight` | internal/modules/commercial/service.go:614-635 | one call debits at most once, with the code the caller, else the order, else cash names; any code but the three debits nothing |
| `Orders.CallLeaves` | internal/modules/commercial/service.go:187-329 | the status and the rows a call leaves of an open order, wherever it stops: fulfilled iff its payment is there or made (supported code, booked debit, row written) and saved, its package granted and recorded or that was so before, and the order saved; else fulfillment_failed iff the package could not be granted and that was saved, else paid iff the payment was saved, else as it was |
| `Orders.CallGrants` | internal/modules/commercial/service.go:346-401 | a paid order without a fulfilment is granted its policies up to the first due grant that fails; any other is granted nothing |
| `Orders.FulfilledIsAbsorbing` | internal/modules/commercial/service.go:195-197 | a fulfilled order is never touched again: no debit, no grant, no row |
| `Orders.ReturnsIffFulfilled` | internal/modules/commercial/service.go:187-329 | a call returns without an error iff the order is fulfilled afterwards |
| `Orders.GrantedExactly` | internal/modules/commercial/service.go:346-401 | granted are the units of every active policy with positive units, and nothing else |
| `Orders.GrantedSumUp` | internal/modules/commercial/service.go:346-401 | each once, and the amount of the fulfilment is their sum |
| `Orders.RunKeepsInv` | internal/modules/commercial/service.go:187-329 | the same over any sequence of retries |
| `Orders.DebitedAtMostOnce` | internal/modules/commercial/service.go:206-258 | when errors mean no debit and booked debits are recorded, the wallet is debited at most once, and exactly once when paid |
| `Orders.DebitsAreAccountedFor` | internal/repository/commercial_repository.go:145-151 | over any retries the debits are the payment rows plus exactly the debits whose row was never written |
| `Orders.LostDebitIsRepeated` | internal/modules/commercial/service.go:206-258 | a debit booked behind an error is booked again by the next call |
| `Orders.FulfilledOrderIsComplete` | internal/modules/commercial/service.go:268-314 | a fulfilled order has exactly one succeeded payment, which records a debit of the order's total, and one succeeded fulfilment, written by a call whose grants are the active positive policies and whose amount is their sum |
| `Outbox.BillingService.ReplayOutbox` | internal/modules/billing/service.go:223-238 | the replayable rows are tried in order and counted |
| `Outbox.BillingService.ReplayOutboxEvent` | internal/modules/billing/service.go:354-410 | one row is tried and ends succeeded or failed |
| `Outbox.ReplayReports` | internal/modules/billing/service.go:354-401 | a replayed row counts one more attempt; it ends succeeded, its report acknowledged and its record delivered, iff its record exists and the platform took the report; a refused one fails with a later time; nothing else changes |
| `Outbox.SyncReports` | internal/modules/billing/service.go:240-352 | a report is sent, the platform's answer noted on its record, and a refused one gets a pending row unless that cannot be inserted |
| `Outbox.CallsReport` | internal/modules/billing/service.go:156-221 | a charge is recorded unless its event was, and reported iff asked; a refund marks its record, if there is one, and is reported |
| `Outbox.ReplayPicks` | internal/repository/commercial_repository.go:81-94 | picked are pending and failed rows whose time has come, earliest first, all of them or as many as the limit allows, 20 when none is given |
| `Outbox.NoReportIsLost` | internal/modules/billing/service.go:156-410 | at every call boundary of every run each issued report is acknowledged or has an open entry, no entry is processing, and a record marked failed has an open entry |
| `Outbox.ReportIsLostIff` | internal/modules/billing/service.go:240-410 | over every run, whatever fails: a report is neither acknowledged nor waiting iff it was sent and neither the platform nor the outbox took any sending of it |
| `Outbox.RefusedReportIsLost` | internal/modules/billing/service.go:240-352 | an input for the loss: the platform refuses the report and its outbox row cannot be inserted |
| `Outbox.ReplayCounts` | internal/modules/billing/service.go:223-238 | processed = succeeded + failed = rows picked |
| `Outbox.SelectionIsDistinct` | internal/repository/commercial_repository.go:81-94 | the picked rows are distinct, replayable, within the limit |
| `Outbox.RecordingAgainIssuesNothing` | internal/modules/billing/service.go:156-170 | recording the same event id again changes nothing |
| `TemplateSeed.TemplateCenterRepository.SeedIfEmpty` | internal/repository/template_center_repository.go:202-361 | the tables after the transaction, all or nothing |
| `TemplateSeed.TemplateCenterRepository.SeedItems` | internal/repository/template_center_repository.go:249-358 | the loop over items, stopping at the first error |
| `TemplateSeed.UnmanagedRowsAreUntouched` | internal/repository/template_center_repository.go:202-361 | a row managed by anyone else keeps itself and all its locales, versions, schemas, examples, favourites and usages; which rows these are, by their columns, is TakeoverIff |
| `TemplateRows.ForeignRowsStay` | internal/repository/template_center_repository.go:299-316 | a row that is not the seed's and is not manually managed, not official, not owned by agent-ecommerce or not created by system keeps itself and all its dependents |
| `TemplateRows.TakeoverIff` | internal/repository/template_center_repository.go:299-316 | in every committed run a listed row that is not the seed's keeps itself and all its dependents iff it differs in one of the four columns |
| `TemplateRows.SystemRowIsTakenOver` | internal/repository/template_center_repository.go:299-358 | a listed row that has all four becomes the seed's with every other column kept, and its dependents are the item's |
| `TemplateRows.ListedRowIsWritten` | internal/repository/template_center_repository.go:249-358 | a missing row, or one of the seed's, becomes the item's with the item's version as its current one, and its dependents are the item's if the row is the seed's afterwards |
| `TemplateRows.UnlistedRows` | internal/repository/template_center_repository.go:209-247 | an unlisted row goes iff it is official and the seed's, and then with all its dependents; any other keeps itself and them |
| `TemplateRows.RolledBackIff` | internal/repository/template_center_repository.go:202-361 | a run leaves the tables as they were iff some item fails on what the items before it left: its slug is another row's, or a key of its dependents is held by a row that is not replaced |
| `TemplateSeed.ReferencesNeverDangle` | internal/repository/template_center_repository.go:202-361 | no reference dangles afterwards if none did before |
| `TemplateSeed.UsageVersionStaysIff` | internal/repository/template_center_repository.go:325-345 | for every committed seed: a usage row goes only with its obsolete catalogue, and the version it names is kept by its catalogue iff no item rewrites the catalogue or the last one that does brings that version |
| `TemplateSeed.UsageVersionGoes` | internal/repository/template_center_repository.go:325-345 | an input for the loss: the seed brings another version of the catalogue a usage row is about |
| `TemplateRuns.SecondRunIff` | internal/repository/template_center_repository.go:202-361 | with no drifted row and no id twice, for any tables: a second run commits iff the first did, and then changes nothing iff no item whose row is missing or the seed's, and which leaves it the seed's, has an example waiting for its version before the first run |
| `TemplateRuns.SecondRunIsIdle` | internal/repository/template_center_repository.go:202-361 | so from tables where no example waits for a version, and after any releases of the seed, a second run with no drifted row changes nothing |
| `TemplateRuns.OrphanIsTakenOverAndDeleted` | internal/repository/template_center_repository.go:325-358 | an input for the exception: one example that waits for the version the seed brings |
| `TemplateRuns.StraysAreOrphans` | internal/repository/template_center_repository.go:325-358 | after a committed run the foreign examples of a rewritten item are the ones that waited for its version before the run |
| `TemplateRuns.RepeatedItemLosesItsOrphan` | internal/repository/template_center_repository.go:249-358 | an item listed twice loses the waiting example within the first run, so the second changes nothing |
| `TemplateRuns.ListedTwice` | internal/repository/template_center_repository.go:249-358 | an input of that kind, so that distinct ids are needed |
| `TemplateRuns.FixedAfterTwoRuns` | internal/repository/template_center_repository.go:202-361 | for every seed and all tables, with drifted rows, waiting examples, repeated ids and failing runs: after two runs a further run changes nothing |
| `StageView.Builder.Build` | internal/modules/visualworkflow/mapper.go:53-109 | the assembled view, overall readiness, verdict and release status |
| `StageView.Builder.ApplySources` | internal/modules/visualworkflow/mapper.go:111-154 | the flag loop over the sources |
| `StageView.Builder.ApplyPrompt` | internal/modules/visualworkflow/mapper.go:199-223 | prompt readiness and the plan's own contract blockers |
| `StageView.Builder.ApplyTasks` | internal/modules/visualworkflow/mapper.go:263-288 | the map of last items by task, then the fixed task order |
| `StageView.BuildVerdict` | internal/modules/visualworkflow/mapper.go:545-575 | the flag loop over the nodes |
| `StageView.BuildRelease` | internal/modules/visualworkflow/mapper.go:630-639 | the loop over the gates |
| `StageView.OverallReadyIff` | internal/modules/visualworkflow/mapper.go:53-381 | overall is ready iff some source shows a SKU and some a reference and none needs a contract, the parsing and the prompt are ready, a version has its provider result, and no needed capability is down; a source shows what its trimmed role text says in any case, or else, with neither known role, a reference iff its kind is url; then there are no blockers |
| `StageView.BlockersIff` | internal/modules/visualworkflow/mapper.go:111-318 | each blocker is in the view iff the inputs that call for it are there: the two dual-track ones iff no source shows a SKU, or none a reference |
| `StageView.ReadinessIff` | internal/modules/visualworkflow/mapper.go:111-318 | each stage readiness, by the inputs |
| `StageView.OverallIff` | internal/modules/visualworkflow/mapper.go:370-381 | blocked iff there is a blocker or the stored parsing readiness says so, otherwise ready or partial |
| `StageView.FlowShows` | internal/modules/visualworkflow/mapper.go:383-543 | what each of the eight nodes of the flow shows, by the inputs |
| `StageView.VerdictIff` | internal/modules/visualworkflow/mapper.go:545-583 | fail iff some node shows a failure, pass iff all show success and there is no blocker, otherwise blocked |
| `StageView.ReleaseIff` | internal/modules/visualworkflow/mapper.go:585-640 | the release passes iff the verdict does, the needed capabilities are released and the first browser evidence is ready or passed |
| `StageView.OverallIsNeverMissing` | internal/modules/visualworkflow/mapper.go:370-381 | the assembled overall readiness is never missing |
| `StageView.StoredStatusIsDeclared` | internal/modules/visualworkflow/service_part4.go:503-525 | whatever texts the platform sends, every sequence of calls that store a parsing job's status leaves a declared one or a blank |
| `StageView.ReleaseChain` | internal/modules/visualworkflow/mapper.go:545-640 | for every parsing status the service stores, the blank one included, and every readiness it reads back: release pass implies verdict pass implies overall ready implies the conditions on source fields, prompt, versions and blockers |
| `StageView.VerdictPassLacksOnlyParsing` | internal/modules/visualworkflow/mapper.go:545-583 | for every stored text a passing verdict gives overall ready iff the parsing is ready |
| `StageView.BlockersAreDistinct` | internal/modules/visualworkflow/mapper.go:187-318 | no two blockers of a view share code and target |
| `StageView.ViewLeaves` | internal/modules/visualworkflow/mapper.go:53-318 | source, prompt and generation readiness follow from their inputs, and the view has no blocker iff all stages are clear |
| `NegativePrompts.SplitPromptTerms` | internal/modules/imageruntime/prompt.go:135-152 | the trimmed, nonblank fields of the text |
| `NegativePrompts.JoinNegativePrompts` | internal/modules/imageruntime/prompt.go:120-133 | the joined first occurrences of all terms |
| `NegativePrompts.JoinNegativePromptsOnePass` | internal/modules/promptcenter/service.go:315-332 | the same text as the image runtime's version on every input |
| `NegativePrompts.JoinedTerms` | internal/modules/imageruntime/prompt.go:120-152 | splitting the joined text yields exactly the first-occurrence deduplication of all terms |
| `NegativePrompts.TermsOfJoin` | internal/modules/imageruntime/prompt.go:120-152 | splitting what was printed gives the printed terms back |
| `NegativePrompts.JoinIsIdempotent` | internal/modules/imageruntime/prompt.go:120-133 | joining a joined text changes nothing |
| `NegativePrompts.JoinAbsorbsNesting` | internal/modules/imageruntime/prompt.go:120-133 | joining a joined text with more equals joining everything at once |
| `NegativePrompts.DedupKeepsFirstOccurrences` | internal/modules/imageruntime/prompt.go:120-133 | every term is kept, once, in the order of first occurrence |
| `NegativePrompts.FieldsKeepEveryCharacter` | internal/modules/imageruntime/prompt.go:135-152 | splitting drops separators and nothing else |
| `NegativePrompts.SeparatorsSplit` | internal/modules/imageruntime/prompt.go:135-152 | comma, semicolon and newline, and the full-width comma and semicolon, split a text into what is before and after; no other character splits |
| `Credits.ConversionIsCeilingIff` | internal/modules/commercial/service.go:630-635 | a positive amount is converted to its exact ceiling iff it is at most the stated bound |
| `Credits.OrderTotalIsExactIff` | internal/modules/commercial/service.go:128-143 | the 64-bit total is exact iff the product fits |
| `Credits.ConversionIsMonotone` | internal/modules/commercial/service.go:630-635 | a larger amount below the bound never costs fewer credits |
| `Credits.SplittingCostsLittle` | internal/modules/commercial/service.go:617-635 | n positive parts never cost fewer credits than their sum and at most n - 1 more |

## Left out

- Organisations, users and their scoping: one organisation is modelled, so a row of another one is a missing row.
- Timestamps: only whether a completion or cancellation time is set is kept; replay delays are whole units.
- JSON: metadata are maps merged to the right; a lookup inside stored JSON text is an exact key lookup. A blank id in metadata is an absent one.
- Texts outside a known list (asset roles, relation kinds, manual product statuses) are one value, so the several messages for them are not told apart.
- ListingBatches.EqualFold: folds the letters that fold to ASCII; other letters are compared exactly.
- Listings.Validate: lengths count characters, and text that is not valid Unicode is not modelled.
- Editing a listing version: it creates a new version through the same creation, with fields taken over from the old one.
- ListingBatches.BatchAdoptListingVersions: the writes of its adoptions succeed; single adoptions have failing ones.
- Exports.BuildManifest: the manifest is a set of relations; the asset details in it, the primary role and file sizes are not modelled.
- The package row of an export package is the value returned at the end; its own two writes, and the backfill of old export snapshots on reading, are not modelled.
- ProductHistory.PublishedWasEarned: a batch is the run of its single calls.
- Visual workflow writeback also writes asset relations, and between its two writes a product can have two primaries; it is not one of the steps of `RunKeepsSound` or of `ProductHistory`.
- Redelivery.AttemptsConverge: for variants of generated type or with a storage key; when variants share an index, which assets are linked is determined, but not which variant's role and position a link shows.
- TemplateRuns.SecondRunIff: for seeds with distinct ids; `RepeatedItemLosesItsOrphan` is an input that needs this.
- Outbox.NoReportIsLost: needs the outbox row of an unacknowledged report to be inserted; `ReportIsLostIff` says what happens otherwise. Writing the charge record itself is taken to succeed.
- Orders.DebitedAtMostOnce: needs that an error means no debit and that the payment row of a booked debit is written; `DebitsAreAccountedFor` counts the others. Sums of policy units are not wrapped to 64 bits.
- Credits.ConversionIsMonotone: stated up to the bound of exactness; above it the conversion wraps around.
- JobInterleaving.CallbacksDecide: starts after a successful dispatch; the full row write after a failed dispatch is not modelled. Callbacks are atomic.
- StageView.Builder.Build: messages, evidence, labels and the contents of the rollback snapshot are not modelled; repositories are taken to answer.
- Prompt compilation, source-asset resolution for a new job, the platform's own jobs, catalogue listing and search, profit figures, downloads, audit, authentication and HTTP handling: they would add only easy members.
