# OneLoyal: the ledger-to-reward pipeline, modelled and proved

OneLoyal turns sale documents into gifts. Documents enter a ledger by CSV import or one at a
time. The documents of a customer inside a campaign's period add up to a total; the total
stands somewhere on the campaign's ladder of gift tiers; reaching a tier lets the customer
claim a gift from its stock. The position is cached in a snapshot, changes of it are
published as domain events, events become notifications, and reports count what is owed.

The project models that pipeline as classes over tables with one method per service call,
each proved against a specification on values. Lemmas named `OnFields`, `OnCells` or `OnColumns`
state what the specification does to each column of the rows; the others state what the calls promise together:

- `Rounding`, `Decimals`, `Arithmetic`: basis points through 28-digit decimals.
- `Amounts`, `AmountForms`, `Strings`: the amount parser against the printers of the forms it reads.
- `Totals`, `Ladder`, `Progress`: the fold over the ledger, the placement, the cache and its event stream.
- `Catalogue`, `Claims`: runs of campaign and tier edits, and of claims against stock.
- `ImportRows`, `Ledger`, `Batches`, `Imports`, `Recalculation`, `Freshness`, `Coherence`: validation, the effect of rows,
  the life of batches, and exactly when the cached progress agrees with the ledger afterwards.
- `Sales`: the ledger's other entry point.
- `Templates`, `Notices`, `Letters`, `Notifications`: template scanning, passes over pending events, and who gets what.
- `Reports`: liability and overview counts.
- `Models`, `Database`, `Basics`: rows, the session with its tables, and counting.

A run is a sequence of calls; `Apply` gives the effect of one call, or none when it raises and
its request is rolled back. The tables are those of one company. Identifiers of new rows are
parameters; new customers draw from a counter.

What turned out not to hold, with the exact condition or a concrete state:

- A numeral with more than 28 significant digits may be accepted with a rounded value (`Amounts.ScalingExactIff`).
- A decimal comma with three digits after and at most three before it is read as a thousands separator (`AmountForms.ParseCommaDecimalIff`).
- A commit does not keep every snapshot up to date. It recalculates only the customers its rows mark, and only in active
  campaigns; any other snapshot stays right exactly when the customer's window weighs the same, which for a customer no
  row marks means that no row takes a record of the period away (`Coherence.CommitKeepsCoherenceIff`,
  `Coherence.MovedRecordLeavesStaleSnapshot`).
- A campaign recalculation does not visit customers without records in the period: their snapshots stay as they are,
  which is right only for a live customer with the blank snapshot (`Coherence.CampaignRecalculationCompleteIff`).
- A write through the sales service recalculates nothing; when that leaves a snapshot stale is exact
  (`Sales.WriteKeepsUpToDateIff`).
- A record rewritten through the sales service keeps its old content hash, so importing the original row
  again is skipped (`Sales.UpsertKeepsHashesIff`, `Sales.ManualRewriteSurvivesImport`).
- Switching stock tracking on or off while a tier has approved, or fulfilled, claims breaks the count of reserved, or of
  fulfilled, units (`Claims.EditConservesIff`).
- Qualified counts need not be the suffix sums of the current counts. They are exactly when as many customers are
  reported at each tier as have a total that stands there, and for every viewer exactly when every snapshot is placed on
  the current ladder (`Reports.SuffixSumsIff`, `Reports.SumsForEveryViewerIff`, `Reports.AgreeForEveryViewerIff`,
  `Reports.StaleSnapshotBreaksSuffixSum`).
- Processing an event fails exactly when one of its rules has no template, or is due a note although it already has two
  notifications for the event, as after its template was switched off (`Notices.EventFailsIff`,
  `Notices.ReplayRaisesAfterDeactivation`).

The documentation of the reorder request asks for every tier exactly once; the code accepts
repeated ids, and the model follows the code.

## Model

| member | source | states |
|---|---|---|
| Rounding.DoubleRoundingIsExact | backend/app/modules/progress/service.py:83-90 | The core of the rounding argument: rounding x/d half-even at a scale P larger than d and then half-up to an integer gives the same as one half-up rounding |
| Rounding.BasisPointsExact | backend/app/modules/progress/service.py:83-90 | For every 64-bit numerator and denominator the 28-digit Decimal division followed by ROUND_HALF_UP equals floor((20000n + d) / (2d)), capped at 10000, and 0 for n <= 0 |
| Rounding.BasisPointsBound | backend/app/modules/progress/service.py:83-90 | Below the threshold the result is at most 10000 and off by at most half a basis point |
| Rounding.FullBeforeReachedIff | backend/app/modules/progress/service.py:83-90 | 100.00 per cent is shown before the tier is reached if and only if 20000 times the amount left is at most the interval |
| Amounts.ScalingExactIff | backend/app/modules/imports/service.py:121-130 | Scaling to minor units agrees with exact arithmetic if and only if the numeral is negative, has no nonzero digit past the 28th, or stays fractional after rounding to 28 digits |
| Amounts.AcceptedIff | backend/app/modules/imports/service.py:115-130 | Within 28 digits a numeral is accepted if and only if it is non-negative and value * 10^scale is integral, and is read as that integer |
| AmountForms.TextIsReadExactly | backend/app/modules/imports/service.py:94-130 | A cell text that normalises to digits with a fraction, within 28 digits, is accepted if and only if the fraction fits the scale up to trailing zeros, and is read as its value in minor units |
| AmountForms.ParsePlain | backend/app/modules/imports/service.py:85-130 | Parsing the plain '.' form of any m < 10^28 at scale s gives m |
| AmountForms.ParseNegative | backend/app/modules/imports/service.py:121-123 | The same text with a minus sign is refused as negative unless m is 0 |
| AmountForms.ParseBlank | backend/app/modules/imports/service.py:101-104 | A missing cell, or one of blanks only, is a missing amount |
| AmountForms.MagnitudeIff | backend/app/modules/imports/service.py:115-119 | A normalised text is a numeral exactly when it is digits, or digits around one point with at least one digit |
| AmountForms.ParseGrouped | backend/app/modules/imports/service.py:85-130 | The same for the form grouped in thousands by commas, spaces or underscores, with or without a fraction |
| AmountForms.ParseGroupedUnits | backend/app/modules/imports/service.py:85-130 | A grouped whole number of units is read as units * 10^scale at every scale |
| AmountForms.ParseCommaDecimalIff | backend/app/modules/imports/service.py:85-113 | The decimal-comma form of m is read as m if and only if it is not shaped like one group of thousands (scale 3 and 0 < m < 10^6); otherwise it is read as 1000 m |
| AmountForms.RoundedBeforeChecked | backend/app/modules/imports/service.py:94-130 | The text 1.0000000000000000000000000001 at scale 0 is rounded before the fraction check and accepted as 1 |
| Totals.CalculateTotal | backend/app/modules/progress/service.py:247-304 | The fold, with its early failure, equals the specification TotalOf |
| Totals.TallyMeaning | backend/app/modules/progress/service.py:247-304 | The signed sum is the sum of the contributions of the included records, and each counter is the number of records in its bucket |
| Totals.TotalOrderIndependent | backend/app/modules/progress/service.py:247-304 | Total, counters and the decision to fail are invariant under any permutation of the records |
| Totals.EveryRecordCounted | backend/app/modules/progress/service.py:261-302 | Included plus the five excluded counters equal the number of records |
| Totals.GrossTotal | backend/app/modules/progress/service.py:93-115 | Under gross the sum is that of the gross column over the counted records, returns and refunds negated, other kinds times their sign |
| Totals.NetTotal | backend/app/modules/progress/service.py:93-115 | Under net the same over the net column, a missing net falling back on gross |
| Totals.PaidTotal | backend/app/modules/progress/service.py:93-115 | Under paid, and under paid_amount_only whatever the basis, the same over the paid column, a missing amount counting as 0 |
| Totals.TotalIsClampedSum | backend/app/modules/progress/service.py:247-304 | The total is that sum or 0 if it is negative; the calculation fails exactly when other currencies are forbidden and a record has one |
| Totals.CountersOnColumns | backend/app/modules/progress/service.py:261-302 | Each counter is the number of records left out for its reason, read from the columns, the first reason winning |
| Totals.RulesOnStoredValues | backend/app/modules/progress/service.py:53-65 | Stored rules are accepted exactly when each word is absent or known, and mean what they say; absent ones mean the defaults |
| Totals.FalsyValues | backend/app/modules/progress/service.py:269-289 | Which stored values switch a flag off |
| Totals.TotalMonotone | backend/app/modules/progress/service.py:93-115 | One more admitted sale never lowers the total, one more return or refund never raises it, under every accepted rule combination |
| Ladder.CalculateTiers | backend/app/modules/progress/service.py:118-169 | The early-exit loop equals the declarative placement Place |
| Ladder.PlacementMeaning | backend/app/modules/progress/service.py:118-169 | Current is the last tier with required <= total, next the first above it, total + amount_left = next.required, amount_left = 0 iff no next tier, the interval is positive and 2abs(bp*d - 10000 n) <= d |
| Ladder.PlacementMonotone | backend/app/modules/progress/service.py:118-169 | (tiers reached, basis points) is monotone in the total in the lexicographic order |
| Database.ActiveTiers | backend/app/modules/progress/service.py:211-226 | The ladder query returns every active tier once, ordered by required amount |
| Database.LadderUnique | backend/app/modules/progress/service.py:211-226 | With distinct amounts that answer is unique |
| Database.SaleRecordsForCustomer | backend/app/modules/progress/service.py:228-245 | The sales query returns the rows of the customer's period window in some order |
| Database.LadderOnFields | backend/app/modules/progress/service.py:211-226 | The ladder holds exactly the active, undeleted tiers of the campaign, each once, by amount |
| Database.WindowOnFields | backend/app/modules/progress/service.py:228-245 | The window holds exactly the customer's undeleted records with an effective date within the campaign, both ends included |
| Progress.RecomputeOrderIndependent | backend/app/modules/progress/service.py:454-496 | A recomputation does not depend on the order in which the records come back |
| Progress.StandingMonotone | backend/app/modules/progress/service.py:118-304 | For a fixed ladder one more sale never lowers (tier, basis points), one more return or refund never raises it |
| Progress.SnapshotOnFields | backend/app/modules/progress/service.py:306-388 | A snapshot column by column: total, counters, currency, last tier reached, first tier not reached, what is missing to it |
| Progress.FreshOnFields | backend/app/modules/progress/service.py:454-496 | A recomputation is for a live campaign and a live customer of the company, else the first of the two errors |
| Progress.UpsertProgress | backend/app/modules/progress/service.py:306-452 | The stored row and the events appended are those of Upsert |
| Progress.CalculateCustomerProgress | backend/app/modules/progress/service.py:454-496 | The call returns what a fresh recomputation gives and stores it, or fails and changes nothing |
| Progress.RecalculateAffectedCustomers | backend/app/modules/progress/service.py:545-579 | The chunked loop recalculates every listed customer in order; if one of them cannot be calculated it fails there, having written exactly those before |
| Progress.WriteAllMeaning | backend/app/modules/progress/service.py:545-579 | Afterwards every listed customer has the row computed for it and no other cache entry moved |
| Progress.UpsertConsistent | backend/app/modules/progress/service.py:325-451 | Whatever row is written, the event stream stays a chain that ends in the stored state |
| Progress.RunConsistent | backend/app/modules/progress/service.py:325-451 | Over every run of recalculations, tier events and recalculated events chain from None and replay to the stored tier and to the stored (total, current, next) |
| Progress.SilentIff | backend/app/modules/progress/service.py:390-451 | A recalculation emits nothing if and only if total, current tier and next tier are unchanged |
| Progress.EventsOnFields | backend/app/modules/progress/service.py:390-451 | The events of a recalculation with every value they carry, and when there is which |
| Progress.AmountLeftChangesSilently | backend/app/modules/progress/service.py:390-398 | The events do not determine the whole snapshot: amount left can change without one |
| Catalogue.NextSortOrder | backend/app/modules/campaigns/service.py:365-377 | One past the largest sort order of the live tiers, 0 without any |
| Catalogue.EnsureAmountAvailable | backend/app/modules/campaigns/service.py:342-363 | Succeeds iff no other live tier of the campaign has the amount |
| Catalogue.ValidateActivation | backend/app/modules/campaigns/service.py:218-238 | The loop with seen amounts succeeds iff the dates are in order, there is an active tier, and the active tiers have the campaign's currency and distinct amounts; otherwise it reports one of the reasons there are |
| Catalogue.ChangeCampaignStatus | backend/app/modules/campaigns/service.py:240-325 | Activate, pause, complete and archive do what Apply says, or raise for a reason in Refusals and change nothing |
| Catalogue.CreateCampaignRow | backend/app/modules/campaigns/service.py:62-96 | Creates a draft campaign with the normalised currency and the claims default, or raises on a reversed date range or a bad currency |
| Catalogue.UpdateCampaignRow | backend/app/modules/campaigns/service.py:149-185 | Applies the patch to an editable campaign, or raises the first error there is and changes nothing |
| Catalogue.DeleteCampaignRow | backend/app/modules/campaigns/service.py:187-201 | Marks the campaign deleted |
| Catalogue.CreateGiftTier | backend/app/modules/campaigns/service.py:379-420 | Creates a tier with the campaign's currency and the next sort order, or raises the first error there is and changes nothing |
| Catalogue.UpdateGiftTier | backend/app/modules/campaigns/service.py:466-509 | Applies the patch to a live tier, or raises the first error there is and changes nothing |
| Catalogue.DeleteGiftTier | backend/app/modules/campaigns/service.py:511-533 | Deactivates and marks deleted |
| Catalogue.ReorderGiftTiers | backend/app/modules/campaigns/service.py:535-564 | Every tier takes its last position in the list of ids, which must be the set of live tiers |
| Catalogue.ReorderMeaning | backend/app/modules/campaigns/service.py:535-564 | Without repeated ids the tiers list in the requested order |
| Catalogue.StatusOnFields | backend/app/modules/campaigns/service.py:240-325 | From which status each change is possible and which status it leads to, nothing else changing |
| Catalogue.ActivateOnFields | backend/app/modules/campaigns/service.py:208-264 | A draft or paused campaign can be activated exactly when its dates are in order and its active tiers, at least one, have its currency and different amounts |
| Catalogue.StatusErrors | backend/app/modules/campaigns/service.py:208-325 | Which errors a refused status change may raise, each exactly when its condition holds and no earlier one |
| Catalogue.CreateCampaignOnFields | backend/app/modules/campaigns/service.py:62-96 | When a campaign is created, and each column of it |
| Catalogue.UpdateCampaignOnFields | backend/app/modules/campaigns/service.py:149-185 | When a campaign is updated, and each column afterwards |
| Catalogue.DeleteCampaignOnFields | backend/app/modules/campaigns/service.py:187-201 | When a campaign is deleted, and that nothing but the mark changes |
| Catalogue.CreateTierOnFields | backend/app/modules/campaigns/service.py:379-420 | When a tier is added, and each column of it, its place being after the last |
| Catalogue.UpdateTierOnFields | backend/app/modules/campaigns/service.py:466-509 | When a tier is updated, and each column afterwards |
| Catalogue.DeleteTierOnFields | backend/app/modules/campaigns/service.py:511-533 | When a tier is deleted: it becomes inactive and marked |
| Catalogue.EditErrors | backend/app/modules/campaigns/service.py:379-564 | Which errors a refused edit may raise |
| Catalogue.ReorderOnFields | backend/app/modules/campaigns/service.py:535-564 | A reorder request is accepted exactly when it names the live tiers of an open campaign and no others |
| Catalogue.ReorderedOnFields | backend/app/modules/campaigns/service.py:557-564 | Each tier named takes its last position, no other row changes |
| Catalogue.StepKeepsInv | backend/app/modules/campaigns/service.py:342-564 | Every call keeps: distinct amounts, distinct sort orders and the campaign's currency among live tiers, amounts in range, dates in order |
| Catalogue.RunKeepsInv | backend/app/modules/campaigns/service.py:342-564 | The same over every run from an empty database, even when reorder ids repeat |
| Catalogue.InvMakesLaddersReady | backend/app/modules/campaigns/service.py:342-420 | In every such state the ladder query of the progress engine is well defined |
| Catalogue.ActivationIff | backend/app/modules/campaigns/service.py:218-263 | Activation succeeds if and only if the campaign is draft or paused and has an active tier |
| Catalogue.RunKeepsFrozen | backend/app/modules/campaigns/service.py:38-42 | Once completed or archived, a campaign's tiers never change again, apart from the stock counters |
| Claims.ReserveStock | backend/app/modules/claims/service.py:160-167 | Untracked: nothing; strict: refuses without available stock; otherwise one more reserved |
| Claims.ReleaseReservedStock | backend/app/modules/claims/service.py:169-174 | One fewer reserved, or the inconsistency conflict |
| Claims.FulfillReservedStock | backend/app/modules/claims/service.py:176-182 | One unit moves from reserved to fulfilled, or the inconsistency conflict |
| Claims.EnsureClaimable | backend/app/modules/claims/service.py:114-158 | Succeeds iff claims are allowed, the campaign is active or completed, a snapshot reaches the tier and no claim is open; otherwise reports the first that fails |
| Claims.CreateClaim | backend/app/modules/claims/service.py:184-248 | The call is the transition Create, or raises the error Refusal names and changes nothing |
| Claims.ApproveClaim | backend/app/modules/claims/service.py:337-380 | The call is the transition Approve with its reservation, or raises the error Refusal names and changes nothing |
| Claims.RejectClaim | backend/app/modules/claims/service.py:382-429 | The call is the transition Reject, giving back a reservation, or raises the error Refusal names and changes nothing |
| Claims.FulfillClaim | backend/app/modules/claims/service.py:431-474 | The call is the transition Fulfill, or raises the error Refusal names and changes nothing |
| Claims.CancelClaim | backend/app/modules/claims/service.py:476-529 | The call is the transition Cancel, for an administrator or a customer, or raises the error Refusal names and changes nothing |
| Claims.EveryCallIsATransition | backend/app/modules/claims/service.py:184-529 | Every call that succeeds makes one legal status move of one claim and moves the tier's counters with it |
| Claims.CreateOnFields | backend/app/modules/claims/service.py:184-248 | Exactly when a customer may claim, in terms of the rows, and the claim that is made |
| Claims.ApproveOnFields | backend/app/modules/claims/service.py:337-380 | Exactly when a claim is approved, and each column of claim and tier afterwards |
| Claims.RejectOnFields | backend/app/modules/claims/service.py:382-429 | Exactly when a claim is rejected, and each column of claim and tier afterwards |
| Claims.FulfillOnFields | backend/app/modules/claims/service.py:431-474 | Exactly when a claim is fulfilled, and each column of claim and tier afterwards |
| Claims.CancelOnFields | backend/app/modules/claims/service.py:476-529 | A customer cancels its own pending claim and no other, an administrator any claim that can be ended; each column of claim and tier afterwards |
| Claims.CreateErrors | backend/app/modules/claims/service.py:184-218 | Which error a refused claim raises, the earlier checks first |
| Claims.MoveErrors | backend/app/modules/claims/service.py:337-474 | Which error a refused approval or fulfilment raises |
| Claims.EndErrors | backend/app/modules/claims/service.py:382-529 | Which error a refused rejection or cancellation raises; a customer is told that another customer's claim is not there |
| Claims.OthersChangeNothing | backend/app/modules/claims/service.py:476-529 | Over every run of calls for other customers and of edits, a customer's claims stay as they are |
| Claims.StepKeepsInv | backend/app/modules/claims/service.py:146-529 | Every call keeps: claims belong to tiers of their campaign, at most one open claim per campaign and customer, events replay to the statuses |
| Claims.RunKeepsInv | backend/app/modules/claims/service.py:146-529 | The same over every run of claim calls and catalogue edits |
| Claims.TerminalIsAbsorbing | backend/app/modules/claims/service.py:337-529 | A rejected, fulfilled or cancelled claim never changes again |
| Claims.FulfilledWasApproved | backend/app/modules/claims/service.py:431-474 | Every fulfilled claim has an earlier approval in the event log |
| Claims.LookupFindsAtMostOne | backend/app/modules/claims/service.py:146-158 | The lookup of an open claim never sees two rows |
| Claims.ClaimCallConserves | backend/app/modules/claims/service.py:160-182 | No claim call changes that reserved and fulfilled count the approved and fulfilled claims |
| Claims.EditConservesIff | backend/app/modules/campaigns/service.py:466-509 | An edit keeps the count of reserved, or of fulfilled, units if and only if it is not an accepted update that switches tracking, or the tier has no claim of the kind counted |
| Claims.ReservationsConserved | backend/app/modules/claims/service.py:160-182 | Over every run in which tracking is only switched without approved claims, reserved_quantity is the number of approved claims |
| Claims.FulfilmentsConserved | backend/app/modules/claims/service.py:176-182 | Over every run in which tracking is only switched without fulfilled claims, fulfilled_quantity is the number of fulfilled claims |
| Claims.StockConserved | backend/app/modules/claims/service.py:160-182 | Over every run that never switches tracking, soft and strict being exchanged freely, both counters are sizes of claim sets; an untracked tier keeps both at 0 |
| Claims.StrictNeverOverCommitted | backend/app/modules/campaigns/models.py:142-146 | A strict tier whose stock edits cover what is committed never has more approved and fulfilled claims than stock |
| Claims.StockAccountsBalance | backend/app/modules/claims/service.py:160-182 | Both results from an empty desk |
| Claims.ApprovedResolvableIff | backend/app/modules/claims/service.py:169-182 | An approved claim can be rejected, fulfilled or cancelled if and only if its tier is still active; the inconsistency conflict is unreachable |
| Claims.ThresholdAdmitsPrefix | backend/app/modules/claims/service.py:133-144 | With an up-to-date snapshot the threshold check admits exactly the tiers up to the current one |
| ImportRows.ValidateRow | backend/app/modules/imports/service.py:277-416 | A row has content iff no check complains, the content is that of the specification, and its key is the content's key |
| ImportRows.ValidRowsAreAdmitted | backend/app/modules/imports/service.py:358-366 | A valid row obeys the sign discipline, has non-negative amounts, and a sale in it is an admitted sale |
| ImportRows.HeadOnCells | backend/app/modules/imports/service.py:279-302 | When customer, name, dates, currency and scale are valid and what they are, cell by cell; the effective date is the sale date unless its cell says otherwise |
| ImportRows.AmountsOnCells | backend/app/modules/imports/service.py:304-340 | Which cell each amount comes from and when they are valid |
| ImportRows.ChoicesOnCells | backend/app/modules/imports/service.py:342-366 | When kind, status, payment status and sign are valid, and the default of the sign |
| ImportRows.AssembledOnCells | backend/app/modules/imports/service.py:374-400 | Every column of a row's content comes from its own part |
| ImportRows.ContentOnCells | backend/app/modules/imports/service.py:368-416 | A row has content exactly when its parts are valid, and the columns its texts come from |
| ImportRows.Words | backend/app/modules/imports/service.py:342-356 | The words of the three lists and what they mean, and no others |
| ImportRows.SameKeyIff | backend/app/modules/imports/service.py:162-173 | Two rows have the same key exactly when they have the same external id, or neither has one and the stable parts are equal |
| Strings.CurrencyMeaning | backend/app/modules/sales/schemas.py:16-20 | A currency code is three letters, put into capitals, blanks around it ignored |
| Strings.StripMeaning | backend/app/modules/imports/service.py:55-59 | Stripping removes spaces at both ends, as far as they go, and nothing else |
| Imports.MarkDuplicateIdempotencyKeys | backend/app/modules/imports/service.py:455-467 | In place, every error-free row that shares its key with another error-free row is marked, and no other |
| Imports.PreviewCsv | backend/app/modules/imports/service.py:176-259 | The new batch holds a row as valid iff it had no error of its own and shares its key with no other such row; the counters count the rows |
| Imports.UpdateContact | backend/app/modules/imports/service.py:657-668 | Last non-null value wins; reports a change iff there is one |
| Imports.UpsertCustomer | backend/app/modules/imports/service.py:611-678 | Creates the customer and its reference, or merges into the referenced one, or fails for a reference that leads elsewhere |
| Imports.UpsertSaleRecord | backend/app/modules/imports/service.py:683-788 | Creates, skips on an equal content hash, or rewrites the record |
| Imports.CommitOneRow | backend/app/modules/imports/service.py:580-609 | One row is the step CommitRow on the ledger |
| Imports.CommitAllRows | backend/app/modules/imports/service.py:502-527 | The loop is the fold of CommitRow over the valid rows, with statuses, statistics and affected customers to match |
| Imports.RecalculateProgress | backend/app/modules/imports/service.py:790-817 | Succeeds iff every affected customer can be calculated in every active campaign, and then all of them are up to date |
| Imports.CommitRowsAndProgress | backend/app/modules/imports/service.py:491-535 | Commits the valid rows and refreshes the cache, or restores ledger and cache when a recalculation fails |
| Imports.CommitBatch | backend/app/modules/imports/service.py:469-560 | Applies an open batch and refreshes the cache, or raises and leaves every table as it was |
| Imports.CancelBatch | backend/app/modules/imports/service.py:819-836 | Cancels anything but a committed batch |
| Batches.PreviewIsSound | backend/app/modules/imports/service.py:216-258 | A previewed batch counts its rows correctly and its valid rows have distinct keys |
| Batches.PreviewOnFields | backend/app/modules/imports/service.py:209-258 | Each row of a previewed batch, its number and status, and the batch's columns |
| Batches.CommitOnFields | backend/app/modules/imports/service.py:482-489 | Which batches can be committed, and the batch and log afterwards |
| Batches.CancelOnFields | backend/app/modules/imports/service.py:819-836 | Which batches can be cancelled, and that only the status changes |
| Batches.StatusOnOutcome | backend/app/modules/imports/service.py:519-527 | A row is committed exactly if its sale was created or rewritten, skipped if it was the same or the row failed |
| Batches.StatisticsOnOutcomes | backend/app/modules/imports/service.py:492-527 | The statistics count the outcomes of each kind |
| Batches.SettledCounts | backend/app/modules/imports/service.py:519-539 | After a commit no row is still valid and each status has gained exactly its outcomes |
| Batches.StepKeepsInv | backend/app/modules/imports/service.py:455-560 | Every call keeps the row accounting of every batch and the log of applied batches |
| Batches.RunKeepsInv | backend/app/modules/imports/service.py:455-560 | Over every run: valid + invalid = total, committed + skipped = valid, counters equal the rows in each status, valid rows have distinct keys, and a batch is applied at most once |
| Batches.FinalBatchesStay | backend/app/modules/imports/service.py:482-489 | A committed or cancelled batch is never touched again; a cancelled one is never applied |
| Batches.ValidContentsDistinct | backend/app/modules/imports/service.py:455-467 | The rows a commit goes through have pairwise distinct keys |
| Batches.ReimportChangesNothing | backend/app/modules/imports/service.py:504-539 | Previewing and committing the same file again skips every valid row, affects no customer and leaves customers, references and sales unchanged |
| Ledger.MergeLaws | backend/app/modules/imports/service.py:657-668 | Merging contacts is associative and idempotent |
| Ledger.ContactsAreFolds | backend/app/modules/imports/service.py:611-678 | A customer's final contact is the old one joined with everything the rows say about it, later over earlier |
| Ledger.RowOnFields | backend/app/modules/imports/service.py:626-668 | One row field by field: name and metadata replaced, phone, tax id and lower-cased email only if the row has them, no other customer changed |
| Ledger.ContactOnFields | backend/app/modules/imports/service.py:626-668 | Over a whole commit each of phone, tax id and lower-cased email is that of the last row naming the customer that has one, else the old one; name and metadata are those of the last row naming it |
| Ledger.FinalPhone | backend/app/modules/imports/service.py:657-668 | The same for the phone, with the rows written out |
| Ledger.RefsAreLast | backend/app/modules/imports/service.py:670-678 | An external reference holds what the last row with its id says |
| Ledger.EveryRowDone | backend/app/modules/imports/service.py:683-750 | With distinct keys each row's key ends with the row's content, unless it failed, and its outcome depends only on the ledger at the start |
| Ledger.RecordOnFields | backend/app/modules/imports/service.py:683-788 | What a row leaves in its sale, column by column, and when it leaves nothing |
| Ledger.OutcomeOnFields | backend/app/modules/imports/service.py:611-678 | When a row made its customer and when it changed the customer's contact |
| Ledger.OtherKeysUntouched | backend/app/modules/imports/service.py:693-750 | Sales whose key no row has are untouched |
| Ledger.AffectedIff | backend/app/modules/imports/service.py:602-609 | Which of the customers there were are affected can be read from the ledger before the commit: those whose reference a row names with a sale that is new or changed |
| Ledger.ReplayChangesNothing | backend/app/modules/imports/service.py:611-750 | From any ledger a second commit of the same rows skips or fails as the first left it, and changes nothing |
| Coherence.RecordsKeptIff | backend/app/modules/imports/service.py:752-788 | A customer not marked as affected keeps exactly its records if and only if no row rewrites one of them |
| Coherence.WindowShrinksIff | backend/app/modules/imports/service.py:752-788 | The window of a customer not marked as affected only shrinks, and does so exactly when a row rewrites an undeleted record of the period |
| Coherence.WindowIsPredicted | backend/app/modules/imports/service.py:683-788 | The window of a customer there was, after the commit, told from the ledger before it and the rows |
| Coherence.CommitKeepsCoherenceIff | backend/app/modules/imports/service.py:504-535 | After a commit every affected customer is up to date in every active campaign. A snapshot that was up to date still is if and only if the campaign is active and a row marks the customer, or the window weighs the same; if no row marks the customer, if and only if no row took an undeleted record of the period from it. All read before the call |
| Coherence.CommitKeepsCoherence | backend/app/modules/imports/service.py:504-535 | A customer whom no row marks and from whom no row takes any record stays up to date in every campaign |
| Coherence.MovedRecordLeavesStaleSnapshot | backend/app/modules/imports/service.py:608 | A row that moves a record of the period: the old owner is not marked and a recomputation would give 0 instead of 100 |
| Coherence.CommitIsAStep | backend/app/modules/imports/service.py:469-560 | What CommitBatch does is a step of the runs the batch invariants are about |
| Coherence.FreshOkIff | backend/app/modules/progress/service.py:454-496 | A calculation succeeds if and only if campaign and customer are live, the rules are known, and no record is in another currency under the fail policy |
| Coherence.CommitSucceedsIff | backend/app/modules/imports/service.py:469-560 | A commit succeeds if and only if the batch is open and every affected customer is so calculable in every active campaign; one soft-deleted customer blocks it |
| Coherence.CampaignRecalculationCompleteIff | backend/app/modules/progress/service.py:498-543 | A campaign recalculation leaves every snapshot of the campaign up to date if and only if each customer without a record in the period is live and already has the blank snapshot |
| Coherence.NoRecordsStaysStale | backend/app/modules/progress/service.py:498-543 | A customer without a record in the period keeps its positive total, and a deleted one keeps whatever was stored |
| Freshness.FreshCountsRecords | backend/app/modules/progress/service.py:247-304 | The counters of a recomputed snapshot add up to the number of records in the window |
| Freshness.WindowCustomersOnFields | backend/app/modules/progress/service.py:498-516 | A campaign recalculation visits exactly the customers with an undeleted record in the period |
| Freshness.SameFreshIff | backend/app/modules/progress/service.py:454-496 | However the records have changed, a recomputation gives the same if and only if every bucket count and the clamped sum of the window are unchanged |
| Freshness.FewerOrMoreIff | backend/app/modules/progress/service.py:454-496 | If records only left or only came, a recomputation gives the same if and only if none did |
| Freshness.ReplacedIff | backend/app/modules/progress/service.py:247-304 | If one record of the window was rewritten, a recomputation gives the same if and only if it stays in its bucket and the clamped total is unchanged |
| Freshness.UpToDateWithoutRecordsIff | backend/app/modules/progress/service.py:454-496 | Without records in the period a snapshot is up to date if and only if campaign and customer are live, the rules are known and the row is blank |
| Recalculation.RecalculateCampaign | backend/app/modules/progress/service.py:545-579 | One more campaign done, nothing else moved |
| Recalculation.RecalculateCampaignProgress | backend/app/modules/progress/service.py:517-543 | Every customer with a record in the period becomes up to date and no other entry moves, or the call fails |
| Sales.ValidateDocumentSign | backend/app/modules/sales/service.py:24-35 | Accepts exactly the signs the import accepts |
| Sales.CreateSaleRecord | backend/app/modules/sales/service.py:79-132 | Inserts the record, or refuses with the first error there is and changes nothing |
| Sales.UpsertSaleRecordBySourceKey | backend/app/modules/sales/service.py:134-188 | Inserts, or rewrites all but batch, hash and deletion mark, or refuses |
| Sales.RefusalOnFields | backend/app/modules/sales/service.py:39-102 | Exactly when a request is accepted, in terms of customer, sign and currency, and which error comes first |
| Sales.StoredOnFields | backend/app/modules/sales/service.py:101-188 | Each column an accepted request stores; a rewrite keeps batch, content hash and deletion mark, no other record changes |
| Sales.AcceptedSalesAreAdmitted | backend/app/modules/sales/service.py:24-35 | Every accepted sale is an admitted sale, so both entry points of the ledger agree |
| Sales.UpsertTwice | backend/app/modules/sales/service.py:134-188 | An upsert made twice is an upsert made once |
| Sales.NewRecordMovesStanding | backend/app/modules/sales/service.py:79-132 | Creating a sale never lowers the buyer's total, tier or percentage in any campaign; creating a return or refund never raises them |
| Sales.WriteKeepsUpToDateIff | backend/app/modules/sales/service.py:134-188 | The service recalculates nothing: after a write a customer that was up to date in a campaign still is if and only if no record entered or left its window and a rewritten one has the same effect |
| Sales.NewRecordKeepsUpToDateIff | backend/app/modules/sales/service.py:79-132 | A new record leaves its buyer up to date if and only if it is outside the period |
| Sales.ImportsKeepHashes | backend/app/modules/imports/service.py:683-788 | Imports keep every content hash in line with its document |
| Sales.UpsertKeepsHashesIff | backend/app/modules/sales/service.py:163-188 | A service upsert keeps that if and only if it leaves an imported record's document as it was |
| Sales.ImportTakesEffectIff | backend/app/modules/imports/service.py:737-750 | Importing a row makes the record say what the row says, unless the stored hash already claims it while the document differs |
| Sales.ManualRewriteSurvivesImport | backend/app/modules/imports/service.py:737-740 | A record rewritten through the service is skipped when its original row is imported again |
| Templates.PrintScan | backend/app/modules/notifications/service.py:32-89 | Scanning a template into literals and placeholders and printing them gives the template back |
| Templates.ScanPrintIff | backend/app/modules/notifications/service.py:32-89 | A token list is the scan of its own text if and only if none of its literals read as a placeholder |
| Templates.RenderTemplate | backend/app/modules/notifications/service.py:77-89 | The substitution loop equals rendering the scanned tokens |
| Templates.RenderIff | backend/app/modules/notifications/service.py:67-89 | Rendering succeeds if and only if every path resolves, and is then the concatenation of literals and values |
| Templates.DoubledBraces | backend/app/modules/notifications/service.py:77-89 | {{a}} renders as a brace, the value, and a brace |
| Templates.PathOnKeys | backend/app/modules/notifications/service.py:67-74 | A dotted path means key by key and leads nowhere past a missing key |
| Templates.EqualIff | backend/app/modules/notifications/service.py:92-100 | A condition compares JSON values by everything but the order in which objects list their keys |
| Templates.PlaceholderPattern | backend/app/modules/notifications/service.py:32 | Braces around one or more letters, digits, underscores and dots read as a placeholder |
| Templates.OnlyPlaceholders | backend/app/modules/notifications/service.py:32 | Nothing else reads as a placeholder |
| Templates.PlaceholderShows | backend/app/modules/notifications/service.py:81-87 | Null shows as nothing, a text as it is, anything else as it prints |
| Notifications.Center.NotificationExists | backend/app/modules/notifications/service.py:699-721 | Found or not, or an exception when two or more rows match |
| Notifications.Center.MakePlan | backend/app/modules/notifications/service.py:538-592 | What a rule wants for an event, in the order of the checks |
| Notifications.Center.ProcessRuleForEvent | backend/app/modules/notifications/service.py:529-605 | The call carries the plan out and counts it |
| Notifications.Center.ProcessDomainEvent | backend/app/modules/notifications/service.py:476-512 | All rules of the event in order, stopping at the first exception |
| Notifications.Center.ProcessPendingDomainEvents | backend/app/modules/notifications/service.py:436-474 | A pass handles the fetched events one by one; a failing one does not stop it |
| Notices.RulesForIff | backend/app/modules/notifications/service.py:514-527 | The rules of an event are exactly the active ones of its company and type |
| Notices.AdminsIff | backend/app/modules/notifications/service.py:631-648 | The administrators reached are exactly the active owners and admins of the company with an address on the channel |
| Notices.ManagersIff | backend/app/modules/notifications/service.py:650-676 | The managers reached are exactly the active users assigned to the event's customer with an address on the channel |
| Notifications.Center.Pending | backend/app/modules/notifications/service.py:443-452 | The query finds exactly the pending events of the company asked for |
| Notifications.Center.PendingInOrder | backend/app/modules/notifications/service.py:446-451 | The query keeps the order of the events |
| Notifications.Center.FetchedAreFirst | backend/app/modules/notifications/service.py:446-451 | and takes the first of them up to the limit |
| Letters.RecipientsOnFields | backend/app/modules/notifications/service.py:607-697 | Who is notified and at which address, read from the rows |
| Letters.PlanOnFields | backend/app/modules/notifications/service.py:538-592 | What a rule asks for, read from template, conditions and recipients |
| Letters.NewRowsOnFields | backend/app/modules/notifications/service.py:476-605 | Every notification an event adds comes from a rule that applies to it: a note the rule asks for, or a pending letter to somebody due with the texts of an active template whose rule's conditions are all met |
| Letters.NoteOnFields | backend/app/modules/notifications/service.py:543-592 | A rule with an inactive template, an unmet condition, a missing placeholder or nobody to notify gets exactly that one note |
| Letters.EverybodyDueIsNotified | backend/app/modules/notifications/service.py:594-605 | Everybody due is notified, unless the event fails |
| Letters.EventEnds | backend/app/modules/notifications/service.py:464-512 | An event ends failed exactly when processing it raised, is tried once more and counted once; without company or rule nothing is written |
| Letters.NotesAreCounted | backend/app/modules/notifications/service.py:551-576 | Notes count as skipped or unrendered even when their row was there |
| Notices.RunKeepsUnique | backend/app/modules/notifications/service.py:699-812 | Over every run of passes no two notifications share event, rule, customer and user |
| Notices.PassAccounting | backend/app/modules/notifications/service.py:464-474 | Every fetched event ends processed or failed, processed + failed equals checked, no notification is lost, and generated counts exactly the new pending rows |
| Notices.RaisesIff | backend/app/modules/notifications/service.py:699-721 | Carrying a rule's plan out raises if and only if the template is gone, or a note is due for a rule that already has two rows for the event |
| Notices.EventFailsIff | backend/app/modules/notifications/service.py:476-512 | Processing an event, for the first time or again, fails if and only if one of its rules blocks it in that way, judged by the rows at the start |
| Notices.SatisfiedIff | backend/app/modules/notifications/service.py:529-605 | Carrying a plan out adds nothing and does not raise if and only if the table already reflects it |
| Notices.EventAddsNothingIff | backend/app/modules/notifications/service.py:476-605 | Processing an event adds nothing and does not fail if and only if the table reflects all its rules |
| Notices.ReplayAddsNothing | backend/app/modules/notifications/service.py:476-605 | Processing an already processed event again, with nothing new asked for, adds no row and does not raise |
| Notices.ReplayRaisesAfterDeactivation | backend/app/modules/notifications/service.py:543-552 | Once a rule has notified two recipients, a replay after its template was switched off raises |
| Reports.CountClaims | backend/app/modules/reports/service.py:615-625 | The loop over grouped rows counts every (tier, status) group and every status |
| Reports.StatusTotals | backend/app/modules/reports/service.py:292-295 | The nested loops give the number of claims in each status |
| Reports.GetGiftLiability | backend/app/modules/reports/service.py:552-666 | Every count of the report is the size of the set it names, and each line carries its tier's stock columns |
| Reports.GetCampaignOverview | backend/app/modules/reports/service.py:214-327 | Every count of the overview is the size of the set it names |
| Reports.ClaimCountsOnFields | backend/app/modules/reports/service.py:278-312 | Every claim total of both reports is a number of the campaign's claims of the customers the viewer sees, written out on the claim table |
| Reports.ClaimLinesOnFields | backend/app/modules/reports/service.py:313-326 | The same for each tier's line, with its stock columns |
| Reports.CustomerCountsOnFields | backend/app/modules/reports/service.py:237-261 | Every customer total of both reports, written out on the snapshot table |
| Reports.CustomerLinesOnFields | backend/app/modules/reports/service.py:587-608 | The same for each tier's line |
| Reports.OthersDoNotShow | backend/app/modules/reports/service.py:86-123 | A sales manager's reports depend on nothing but the assigned customers |
| Reports.SuffixSumsIff | backend/app/modules/reports/service.py:252-276 | The qualified counts are the suffix sums of the current counts if and only if as many customers are reported at each tier as have a total that stands there |
| Reports.SumsForEveryViewerIff | backend/app/modules/reports/service.py:668-707 | They are for every viewer if and only if every snapshot is reported at exactly the rung where its total stands |
| Reports.QualifiedIsSuffixSum | backend/app/modules/reports/service.py:668-707 | In particular with snapshots placed on the current ladder |
| Reports.QualifiedAntitone | backend/app/modules/reports/service.py:668-707 | Qualified counts never increase along the ladder |
| Reports.AgreeIff | backend/app/modules/reports/service.py:576-585 | Suffix sums hold and total qualified = reached any if and only if each tier, and no tier, is reported for as many customers as have a total that stands there |
| Reports.ManagersSeePart | backend/app/modules/reports/service.py:86-102 | A sales manager's report is made from the part of the snapshots of the assigned customers |
| Reports.AgreeForEveryViewerIff | backend/app/modules/reports/service.py:86-102 | The reports of every viewer agree if and only if every snapshot is placed on the current ladder |
| Reports.ReportsAgree | backend/app/modules/reports/service.py:552-666 | When the counts match: suffix sums, first = total qualified = reached any, last = reached highest, and the claim counts of both reports agree |
| Reports.UpToDateIsPlaced | backend/app/modules/progress/service.py:454-496 | An up-to-date snapshot is placed on the current ladder |
| Reports.StaleSnapshotBreaksSuffixSum | backend/app/modules/reports/service.py:668-707 | A tier raised after the last recalculation leaves a customer reported at it whom the qualified count no longer counts |
| Reports.LiabilityMatchesStock | backend/app/modules/reports/service.py:651-662 | Approved and fulfilled claims of a tracked tier equal its reserved and fulfilled quantity, and the available quantity is the stock less both |

## Left out

- HTTP routes, request schemas beyond the bounds they put on amounts and signs, SQL, migrations, logging, audit entries, timestamps.
- The sync service and ERP providers, the frontend, authentication, localisation, billing, pagination and list filters.
- Interleavings below the level of a service call, and database integrity errors in the middle of a batch.
- Hashes are taken as injective, and an external id spelled like a generated key is taken to differ from one.
- Amounts: exponent notation, NaN, Infinity, non-ASCII digits, and scales beyond the decimal exponent range.
- Dates, integers and JSON objects in a CSV cell are read by library functions that are parameters of the model; so is CSV tokenising.
- Text is ASCII: stripping and case conversion of other characters are not modelled.
- A rule value of a type the code cannot hash (a list or an object) counts as an unknown rule.
- Titles, descriptions, images and translations of campaigns and tiers; the company's settings are parameters.
- Soft deletion of claims and hard deletion of rules, templates and customers behind existing notifications.
- The ten entries of an event's context are carried as one value, and a condition compares JSON numbers and lists by their text, so 1, 1.0 and true differ.
- Sending notifications, and the statuses after pending.
- Reports: the top-customer, close-to-tier, claims, manager and sync-health lists.
- Timestamps touched by a skipped row (synced_at, last_seen_at), the raw payloads, and the archived flag of a record.
- Catalogue.CreateCampaignRow: titles, descriptions and visibility settings are not modelled.
- Catalogue.UpdateCampaignRow: titles, descriptions and visibility settings are not modelled.
- Catalogue.CreateGiftTier: titles, descriptions and images are not modelled.
- Catalogue.UpdateGiftTier: titles, descriptions and images are not modelled.
- ImportRows.ValidateRow: the wording of the errors is not part of the contract, only whether there are any.
- Imports.PreviewCsv: file name, encoding, header and required columns are taken as checked.
- Sales.CreateSaleRecord: stripping of the source key is taken as done; source type, provider and external update time are not modelled.
- Sales.UpsertSaleRecordBySourceKey: stripping of the source key is taken as done; source type, provider and external update time are not modelled.
- Reports.GetCampaignOverview: the purchase sum and its average are not modelled.
