# Prepacking service — a Dafny model

This project models the core of the Lesotho eLMIS prepacking service. Prepacking splits a bulk
product lot into smaller prepacks. A *prepacking event* lists line items, each asking for
`numberOfPrepacks` packs of `prepackSize` units taken from one bulk orderable and lot.

**Authorizing an event** walks its line items in list order. For each item it:

- reads the stock on hand of the bulk lot;
- compares it with `prepackSize * numberOfPrepacks`;
- when stock suffices, derives the prepack product code, name and child-lot code
  (`base + "-" + size`);
- reuses the first orderable with that code and name, or creates a trade item and an orderable;
- finds or submits the child lot;
- creates a facility-type approval when none exists;
- submits a debit of the bulk lot and a credit of the child lot;
- writes one of three remarks on the item.

The event then becomes AUTHORIZED, whatever the remarks.

**Around the loop**, the model covers:

- the keyed stores of prepacking and point-of-delivery events (get, update by null-preserving
  merge, reject, delete, listings);
- the DTO-to-entity conversions;
- the process context's identity policy;
- the lot query parameters;
- the status entities;
- the fail-fast stock-event validation pipeline.

**Modules**, one per component:

- `Types` (`types.dfy`): Java null as `Option`, UUIDs as naturals, Java string and integer rendering, truncating division, order-keeping filters.
- `ReferenceData` (`reference_data.dfy`): orderables, trade items, lots, approvals and stock events as values; the catalog state; `findOne` and the search pages.
- `Services` (`services.dfy`): the reference-data catalog (`Catalog`) and the stock ledger (`StockLedger`) as classes whose methods append; a counter hands out fresh identifiers.
- `LotQueries` (`lot_queries.dfy`): the lot client's request parameters and its first-or-null selection.
- `PrepackingEvents`, `PrepackingDto`, `PrepackingMapping` (`prepacking_event.dfy`, `prepacking_dto.dfy`, `prepacking_mapping.dfy`): the event aggregate, its DTO, and the conversions both ways.
- `PrepackSpec` (`prepack_spec.dfy`): authorization as functions of the catalog and ledger it starts from, and the lemmas about them.
- `Prepacking` (`prepacking_service.dfy`): the service class with its event repository (`map`). The authorization methods are each proved equal to their function in `PrepackSpec`; get, update, delete and reject are specified by their before/after contracts.
- `PointOfDelivery` (`point_of_delivery.dfy`): point-of-delivery events, their DTO, and the service class.
- `ContextBuilder` (`context_builder.dfy`): the process context, whose suppliers are values read later against a session.
- `Validation` (`validation.dfy`): the validator pipeline as the integration test fixes it.
- `StatusEntities` (`status_entities.dfy`): status changes and status messages as classes, with their exporters.

**Services and inputs:**

- The stock service's answer to a stock-card search is an input (`Env`) that depends on the
  query and on every stock event submitted so far. A later line item's stock check therefore
  sees the debits of earlier ones. Facility-type codes and program codes are read-only inputs.
- Today's date and `now()` are parameters.
- `UUID.randomUUID()` is the catalog's counter.
- A Java `NullPointerException` part-way through authorization is a `Failure` outcome. It
  aborts the loop. The catalog entries and stock events already submitted to the remote
  services stay, since nothing in the source undoes them.

## Model

Source paths below are relative to the repository root.

| member | source | states |
|---|---|---|
| `Prepacking.PrepackingService.AuthorizePrepack` | src/main/java/org/openlmis/prepacking/service/PrepackingService.java:328-527 | unknown id: answers null and changes nothing. Otherwise the catalog and ledger end as `AuthorizeItems` says. The stored event's line items carry the remarks. Without an exception the status is AUTHORIZED (whatever the remarks) and the DTO of the updated event is answered. On an exception the status is unchanged and, by the model's choice (see Left out), the remarks written so far are kept |
| `Prepacking.PrepackingService.AuthorizeLineItems` | src/main/java/org/openlmis/prepacking/service/PrepackingService.java:335-518 | the loop over the line items in list order, stopping at the first exception, ends in exactly the state, remarks and failure of `AuthorizeItems` |
| `Prepacking.PrepackingService.AuthorizeLineItem` | src/main/java/org/openlmis/prepacking/service/PrepackingService.java:337-356 | one loop pass ends in the world `AuthorizeItem` gives and returns its remark, or the exception it raises |
| `Prepacking.PrepackingService.CompleteLineItem` | src/main/java/org/openlmis/prepacking/service/PrepackingService.java:357-505 | past the stock check, the method's effect on the catalog and ledger and its remark or exception are those of `CompleteItem` |
| `Prepacking.PrepackingService.FindOrCreatePrepack` | src/main/java/org/openlmis/prepacking/service/PrepackingService.java:357-442 | the catalog ends as `ResolvePrepack` says; it returns the resolved prepack and child lot, or nothing when the reused orderable has no "tradeItem" identifier |
| `Prepacking.PrepackingService.CreatePrepackAndLot` | src/main/java/org/openlmis/prepacking/service/PrepackingService.java:369-421 | with an empty code-and-name search, the create branch gives exactly `ResolvePrepack`'s catalog, orderable and child lot |
| `Prepacking.PrepackingService.CreatePrepack` | src/main/java/org/openlmis/prepacking/service/PrepackingService.java:371-398 | a new orderable takes the next identifier, its local-manufacturer trade item the one after, and the catalog gains exactly these two |
| `Prepacking.PrepackingService.FindOrCreateChildLot` | src/main/java/org/openlmis/prepacking/service/PrepackingService.java:406-420 | the child lot and catalog are `FindOrCreateLot`'s: the matching lot, or one newly submitted lot |
| `Prepacking.PrepackingService.EnsureApproved` | src/main/java/org/openlmis/prepacking/service/PrepackingService.java:450-472 | the catalog becomes `EnsureApproval` of the old one: an approval with default periods is added only when the search is empty |
| `Prepacking.PrepackingService.SubmitPair` | src/main/java/org/openlmis/prepacking/service/PrepackingService.java:450-504 | the approval, then exactly the debit and then the credit are appended to the ledger |
| `Prepacking.AbortSticks` | src/main/java/org/openlmis/prepacking/service/PrepackingService.java:335 | once a pass has thrown, the later line items change nothing: the run over all items equals the run over the prefix |
| `PrepackSpec.AuthorizeItems` | src/main/java/org/openlmis/prepacking/service/PrepackingService.java:335-518 | every remark is one of the three fixed strings. Without an abort every item gets one; with an abort fewer do. The ledger only grows, as an extension of the old ledger |
| `PrepackSpec.AuthorizeItem` | src/main/java/org/openlmis/prepacking/service/PrepackingService.java:337-517 | the remark is one of three. An unsuccessful remark changes nothing and an abort leaves the ledger as it was. "Successful" appends exactly two events that form a debit/credit pair |
| `PrepackSpec.CompleteItem` | src/main/java/org/openlmis/prepacking/service/PrepackingService.java:357-505 | past the stock check the only remark is "Successful"; it appends exactly one balanced pair, and an exception leaves the ledger unchanged |
| `PrepackSpec.RemarkAt` | src/main/java/org/openlmis/prepacking/service/PrepackingService.java:335 | the i-th remark is what one pass answers for the i-th item in the world the earlier items left (list order) |
| `PrepackSpec.StockDecidesRemark` | src/main/java/org/openlmis/prepacking/service/PrepackingService.java:346-351 | "orderable does not exist" iff the stock search, answered against the ledger as it stands, is empty. "inadequate stock" iff quantity > stock on hand. "Successful" only with quantity <= stock on hand (equality suffices) |
| `PrepackSpec.MissingBulkLotAborts` | src/main/java/org/openlmis/prepacking/service/PrepackingService.java:337-345 | a bulk lot id the catalog does not have aborts the item with nothing read or written |
| `PrepackSpec.SuccessfulEntries` | src/main/java/org/openlmis/prepacking/service/PrepackingService.java:474-505 | a successful item appends exactly two events: a debit of the bulk orderable and the item's lot with the debit reason, then a credit of the prepack and the child lot with the credit reason. Both carry the quantity to prepack, today's date, and the event's facility, program and prepacker |
| `PrepackSpec.StepBalanced` | src/main/java/org/openlmis/prepacking/service/PrepackingService.java:474-517 | one pass keeps the appended ledger segment a run of debit/credit pairs and adds 2 events exactly when it succeeds |
| `PrepackSpec.LedgerDeltaBalanced` | src/main/java/org/openlmis/prepacking/service/PrepackingService.java:474-505 | the events one authorization appends are one debit/credit pair per successful item and nothing else |
| `PrepackSpec.BalancedConserves` | src/main/java/org/openlmis/prepacking/service/PrepackingService.java:478-499 | over a run of pairs, the total quantity debited equals the total credited |
| `PrepackSpec.AuthorizeConserves` | src/main/java/org/openlmis/prepacking/service/PrepackingService.java:346-347 | over a whole authorization the debited and credited totals are equal |
| `PrepackSpec.ResolvePrepack` | src/main/java/org/openlmis/prepacking/service/PrepackingService.java:357-442 | the resolved prepack has the derived code and name, and its child lot has the derived lot code and the prepack's trade item; both are in the new catalog. Approvals are untouched. The only failure is the missing trade-item identifier, with the catalog unchanged |
| `PrepackSpec.FindOrCreateLot` | src/main/java/org/openlmis/prepacking/service/PrepackingService.java:406-420 | the child lot has the trade item and derived code. When `getLotMatching` finds one, the catalog is unchanged. Otherwise exactly one lot is appended, with the bulk lot's dates and active flag |
| `PrepackSpec.EnsureApproval` | src/main/java/org/openlmis/prepacking/service/PrepackingService.java:450-472 | the catalog is unchanged when the search finds an approval; otherwise exactly one approval with periods 1.0/1.0/1.0 is appended. Afterwards the search is never empty |
| `PrepackSpec.CreatesPrepackWhenAbsent` | src/main/java/org/openlmis/prepacking/service/PrepackingService.java:369-421 | with no match, the orderable takes the next identifier, its local-manufacturer trade item the one after, and the child lot (with the bulk lot's dates) the third. The catalog gains exactly these three, and the orderable's id is new. A fresh trade item has no lots, so the child lot is always submitted |
| `PrepackSpec.ReusesFirstMatch` | src/main/java/org/openlmis/prepacking/service/PrepackingService.java:422-442 | with a match, the first one is reused and no trade item or orderable is created. The lot catalog is unchanged or gains only the child lot. It fails iff that orderable has no trade item |
| `PrepackSpec.ResolveMissingTradeItem` | src/main/java/org/openlmis/prepacking/service/PrepackingService.java:429-430 | a reused orderable without a "tradeItem" identifier fails, with the catalog unchanged |
| `PrepackSpec.NewPrepackIsFirstMatch` | src/main/java/org/openlmis/prepacking/service/PrepackingService.java:362-366 | after creation the new orderable is the only match of its own code and name |
| `PrepackSpec.FindOrCreateLotStable` | src/main/java/org/openlmis/prepacking/service/PrepackingService.java:414-420 | looking the child lot up again finds the same lot and creates nothing |
| `PrepackSpec.ResolveIdempotent` | src/main/java/org/openlmis/prepacking/service/PrepackingService.java:362-442 | resolving again against the resolved catalog, whatever approvals were added, reuses the same prepack and lot and creates nothing |
| `PrepackSpec.CompleteItemTwice` | src/main/java/org/openlmis/prepacking/service/PrepackingService.java:357-505 | repeating the part past the stock check creates nothing and submits the same pair again |
| `PrepackSpec.AuthorizeItemTwice` | src/main/java/org/openlmis/prepacking/service/PrepackingService.java:335-505 | re-authorizing a line item that succeeded, when the stock service asked after the first debit still reports enough stock, creates no orderable, trade item, lot or approval and submits the same debit and credit once more |
| `PrepackSpec.AuthorizeItemTwiceInadequate` | src/main/java/org/openlmis/prepacking/service/PrepackingService.java:339-351 | the second pass re-reads the stock against the ledger holding the first debit; when that answer no longer covers the quantity it remarks inadequate stock and changes nothing |
| `PrepackSpec.ResolveGrows` | src/main/java/org/openlmis/prepacking/service/PrepackingService.java:357-442 | resolution only appends to the catalog and never hands out an identifier already held |
| `PrepackSpec.FindOrCreateLotGrows` | src/main/java/org/openlmis/prepacking/service/PrepackingService.java:406-420 | the child-lot step only appends, and every identifier stays below the counter |
| `PrepackSpec.AuthorizeItemsGrows` | src/main/java/org/openlmis/prepacking/service/PrepackingService.java:335-518 | over the loop the catalog only grows, and identifiers stay fresh |
| `PrepackSpec.WithRemarks` | src/main/java/org/openlmis/prepacking/service/PrepackingService.java:505-516 | the first remarks are written on the first line items in order, and the rest of the items are unchanged |
| `PrepackSpec.WithRemarksStep` | src/main/java/org/openlmis/prepacking/service/PrepackingService.java:505-516 | writing one more remark changes only the next line item |
| `PrepackSpec.DerivedTextDistinguishesSizes` | src/main/java/org/openlmis/prepacking/service/PrepackingService.java:358-361 | two prepack sizes of one bulk product never share a derived code, name or lot code |
| `PrepackSpec.IntToStringInjective` | src/main/java/org/openlmis/prepacking/service/PrepackingService.java:359 | `Integer.toString` is injective |
| `PrepackSpec.IntToStringSign` | src/main/java/org/openlmis/prepacking/service/PrepackingService.java:359 | `Integer.toString` starts with '-' exactly for negative values |
| `PrepackSpec.NewPrepackOrderableFields` | src/main/java/org/openlmis/prepacking/service/PrepackingService.java:371-395 | for every size, negative included: net content = size and rounding threshold = size / 2 rounded toward zero (within one of half the size, on the side of zero). It takes the bulk's programs, round-to-zero and dispensable, its trade item, and version 1 |
| `Types.NatToStringInjective` | src/main/java/org/openlmis/prepacking/service/PrepackingService.java:359 | distinct naturals print differently |
| `Types.JavaDiv` | src/main/java/org/openlmis/prepacking/service/PrepackingService.java:380 | Java `/` truncates toward zero: the remainder has the sign of the dividend and is smaller than the divisor in magnitude |
| `Types.FilterMembers` | src/main/java/org/openlmis/prepacking/service/PrepackingService.java:362-366 | a search page holds exactly the catalog entries that match |
| `ReferenceData.FindById` | src/main/java/org/openlmis/prepacking/service/PrepackingService.java:337-355 | `findOne` on the lot and orderable services: a found element is in the catalog and carries the id asked for |
| `ReferenceData.FindByIdMissing` | src/main/java/org/openlmis/prepacking/service/PrepackingService.java:337-355 | `findOne` answers null only when no element of the catalog has the id |
| `ReferenceData.FindByIdPrefix` | src/main/java/org/openlmis/prepacking/service/PrepackingService.java:337-355 | a lookup that succeeds keeps its answer as the catalog grows |
| `ReferenceData.OrderablesNamedFirst` | src/main/java/org/openlmis/prepacking/service/PrepackingService.java:424 | the first orderable of a non-empty page is in the catalog with the derived code and name |
| `Services.Catalog.NewUuid` | src/main/java/org/openlmis/prepacking/service/PrepackingService.java:372 | answers the counter, which no catalog entry holds, and only the counter advances |
| `Services.Catalog.SubmitTradeItem` | src/main/java/org/openlmis/prepacking/service/PrepackingService.java:384-386 | the service appends the trade item under a fresh identifier |
| `Services.Catalog.PutOrderable` | src/main/java/org/openlmis/prepacking/service/PrepackingService.java:397-398 | the orderable is appended, nothing else changes |
| `Services.Catalog.SubmitLot` | src/main/java/org/openlmis/prepacking/service/PrepackingService.java:417 | the lot is appended under a fresh identifier, with the given fields |
| `Services.Catalog.SubmitApproval` | src/main/java/org/openlmis/prepacking/service/PrepackingService.java:468-471 | the approval is appended, nothing else changes |
| `Services.StockLedger.Submit` | src/main/java/org/openlmis/prepacking/service/PrepackingService.java:487 | the event is appended after everything submitted before |
| `Prepacking.PrepackingService.GetPrepackingEventById` | src/main/java/org/openlmis/prepacking/service/PrepackingService.java:161-169 | null iff the id is unknown; otherwise the DTO of the stored event |
| `Prepacking.PrepackingService.UpdatePrepackingEvent` | src/main/java/org/openlmis/prepacking/service/PrepackingService.java:177-197 | unknown id: null, store unchanged. Otherwise the stored event becomes its merge with the DTO's event and that DTO is answered |
| `Prepacking.CopyAttributes` | src/main/java/org/openlmis/prepacking/service/PrepackingService.java:199-226 | the chain of conditional setters computes `Merge` |
| `Prepacking.MergeFields` | src/main/java/org/openlmis/prepacking/service/PrepackingService.java:199-226 | each of the eight listed fields takes the incoming value exactly when it is non-null; id, supervisory node and draft message never change |
| `Prepacking.MergeIdempotent` | src/main/java/org/openlmis/prepacking/service/PrepackingService.java:199-226 | merging the same incoming event twice is merging it once |
| `Prepacking.UpdateFromDto` | src/main/java/org/openlmis/prepacking/service/PrepackingService.java:184-189 | an update through the DTO always restamps the creation date and keeps the stored prepacker and id. It replaces the line items with the DTO's: an absent list gives the empty list |
| `Prepacking.PrepackingService.DeletePrepackingEvent` | src/main/java/org/openlmis/prepacking/service/PrepackingService.java:233-249 | a present event is removed; an absent one raises not-found and nothing changes |
| `Prepacking.PrepackingService.RejectPrepack` | src/main/java/org/openlmis/prepacking/service/PrepackingService.java:535-548 | REJECTED is set whatever the status was, and the event is saved and answered. An unknown id answers null and changes nothing |
| `PrepackingMapping.ListingOf` | src/main/java/org/openlmis/prepacking/service/PrepackingService.java:110-153 | a null repository answer gives the empty list; otherwise one DTO per event, in order |
| `PrepackingMapping.ToDtos` | src/main/java/org/openlmis/prepacking/service/PrepackingService.java:257-263 | one DTO per event, same length and order |
| `PrepackingMapping.ToDto` | src/main/java/org/openlmis/prepacking/service/PrepackingService.java:271-283 | every built field is copied. Draft message and event remarks stay null. One line-item DTO per line item |
| `PrepackingMapping.LineItemsToDtos` | src/main/java/org/openlmis/prepacking/service/PrepackingService.java:291-299 | one line-item DTO per line item, same length and order |
| `PrepackingMapping.LineItemsRoundTrip` | src/main/java/org/openlmis/prepacking/service/PrepackingService.java:307-320 | converting line items to DTOs and back gives the same line items |
| `PrepackingMapping.EventRoundTripKeepsLineItems` | src/main/java/org/openlmis/prepacking/dto/PrepackingEventDto.java:67-71 | `toPrepackingEvent(prepackingToDto(e))` keeps e's line items, facility, program and status |
| `PrepackingDto.ToLineItems` | src/main/java/org/openlmis/prepacking/dto/PrepackingEventDto.java:81-85 | element i is converted from DTO element i; same length |
| `PrepackingDto.LineItemsOf` | src/main/java/org/openlmis/prepacking/dto/PrepackingEventDto.java:76-86 | a null list gives the empty list; otherwise same length and order, element-wise converted |
| `PrepackingDto.LineItems` | src/main/java/org/openlmis/prepacking/dto/PrepackingEventDto.java:76-86 | the loop computes `LineItemsOf` |
| `PrepackingDto.ToPrepackingEvent` | src/main/java/org/openlmis/prepacking/dto/PrepackingEventDto.java:67-71 | creation date is `now`. Facility, program, comments, status and draft message are carried through. Line items equal `lineItems()`. The prepacker fields stay null |
| `LotQueries.LotMatchingParams` | src/main/java/org/openlmis/prepacking/service/referencedata/LotReferenceDataService.java:131-139 | the query holds tradeItemId exactly when it is non-null and lotCode exactly when it is non-null, with those values, and nothing else |
| `LotQueries.FirstOrNull` | src/main/java/org/openlmis/prepacking/service/referencedata/LotReferenceDataService.java:141-143 | null exactly when the page is empty, otherwise the first element |
| `LotQueries.LotMatching` | src/main/java/org/openlmis/prepacking/service/referencedata/LotReferenceDataService.java:131-144 | a non-null answer is a lot of the catalog that agrees with the DTO's trade item and lot code wherever those are set |
| `LotQueries.MatchingParams` | src/main/java/org/openlmis/prepacking/service/referencedata/LotReferenceDataService.java:112-123 | tradeItemId and expirationDate are each sent exactly when non-null, and nothing else is |
| `LotQueries.LotsOfParams` | src/main/java/org/openlmis/prepacking/service/referencedata/LotReferenceDataService.java:98-100 | only tradeItemId is ever sent, exactly when non-null, with its value |
| `LotQueries.ExpiringOnParams` | src/main/java/org/openlmis/prepacking/service/referencedata/LotReferenceDataService.java:108-110 | only expirationDate is ever sent |
| `LotQueries.BetweenParams` | src/main/java/org/openlmis/prepacking/service/referencedata/LotReferenceDataService.java:159-174 | each of tradeItemId and the two date bounds is sent exactly when non-null, with its value |
| `LotQueries.ExpiringBetweenParams` | src/main/java/org/openlmis/prepacking/service/referencedata/LotReferenceDataService.java:154-157 | tradeItemId is never sent; each date bound is sent exactly when non-null, with its value |
| `LotQueries.LotMatchingFinds` | src/main/java/org/openlmis/prepacking/service/referencedata/LotReferenceDataService.java:131-144 | with both fields present, the answer is a catalog lot of that trade item and code. It is null exactly when no such lot exists |
| `LotQueries.LotMatchingAppend` | src/main/java/org/openlmis/prepacking/service/referencedata/LotReferenceDataService.java:131-144 | appending a lot does not change an existing first match |
| `LotQueries.LotMatchingAppendNew` | src/main/java/org/openlmis/prepacking/service/referencedata/LotReferenceDataService.java:131-144 | a matching lot appended to a catalog without a match becomes the match |
| `PointOfDelivery.HasSourceId` | src/main/java/org/openlmis/prepacking/dto/PointOfDeliveryEventDto.java:108-110 | true exactly when sourceId is non-null |
| `PointOfDelivery.HasDestinationId` | src/main/java/org/openlmis/prepacking/dto/PointOfDeliveryEventDto.java:112-114 | true exactly when destinationId is non-null |
| `PointOfDelivery.ToDiscrepancies` | src/main/java/org/openlmis/prepacking/dto/PointOfDeliveryEventDto.java:124-128 | same length and order, element i converted from DTO element i |
| `PointOfDelivery.DiscrepanciesOf` | src/main/java/org/openlmis/prepacking/dto/PointOfDeliveryEventDto.java:119-129 | a null list gives the empty list; otherwise same length and order |
| `PointOfDelivery.Discrepancies` | src/main/java/org/openlmis/prepacking/dto/PointOfDeliveryEventDto.java:119-129 | the loop computes `DiscrepanciesOf` |
| `PointOfDelivery.ToPodEvent` | src/main/java/org/openlmis/prepacking/dto/PointOfDeliveryEventDto.java:90-106 | the receiving user id and names come from the context, not the DTO, and the receiving date is `now`. It fails iff there is no context. Discrepancies are `discrepancies()` |
| `PointOfDelivery.ListingOf` | src/main/java/org/openlmis/prepacking/service/PointOfDeliveryService.java:59-67 | a null repository answer gives the empty list; otherwise one DTO per event, in order |
| `PointOfDelivery.PodsToDtos` | src/main/java/org/openlmis/prepacking/service/PointOfDeliveryService.java:207-213 | one DTO per event, same length and order |
| `PointOfDelivery.PodToDto` | src/main/java/org/openlmis/prepacking/service/PointOfDeliveryService.java:221-245 | every one of the twenty copied fields equals the event's, no context is set, and the discrepancy list is `DiscrepanciesToDtos` of the event's list, in order |
| `PointOfDelivery.DiscrepanciesToDtos` | src/main/java/org/openlmis/prepacking/service/PointOfDeliveryService.java:253-259 | same number and order of discrepancies. Each keeps id, shipment type, quantity and comments, and gets the rejection reason looked up by its id |
| `PointOfDelivery.PointOfDeliveryService.GetPointOfDeliveryEventById` | src/main/java/org/openlmis/prepacking/service/PointOfDeliveryService.java:75-77 | present exactly when the id is stored, and then the stored event |
| `PointOfDelivery.PointOfDeliveryService.UpdatePointOfDeliveryEvent` | src/main/java/org/openlmis/prepacking/service/PointOfDeliveryService.java:85-111 | unknown id: null, nothing saved. Otherwise the stored event becomes its merge with the DTO's event under the built context, and its DTO is answered |
| `PointOfDelivery.PointOfDeliveryService.DeletePointOfDeliveryEvent` | src/main/java/org/openlmis/prepacking/service/PointOfDeliveryService.java:182-199 | a present event is removed; an absent one raises not-found and nothing changes |
| `PointOfDelivery.CopyAttributes` | src/main/java/org/openlmis/prepacking/service/PointOfDeliveryService.java:113-175 | the chain of sixteen conditional setters computes `Merge` |
| `PointOfDelivery.CopyParties` | src/main/java/org/openlmis/prepacking/service/PointOfDeliveryService.java:115-126 | the setters for source and destination compute `MergeParties` |
| `PointOfDelivery.CopyPacking` | src/main/java/org/openlmis/prepacking/service/PointOfDeliveryService.java:127-135 | the setters for reference number, packing date and packer compute `MergePacking` |
| `PointOfDelivery.CopyCartons` | src/main/java/org/openlmis/prepacking/service/PointOfDeliveryService.java:136-151 | the carton setters compute `MergeCartons` |
| `PointOfDelivery.CopyContainers` | src/main/java/org/openlmis/prepacking/service/PointOfDeliveryService.java:152-167 | the container setters compute `MergeContainers` |
| `PointOfDelivery.CopyNotes` | src/main/java/org/openlmis/prepacking/service/PointOfDeliveryService.java:168-173 | the remarks and discrepancy setters compute `MergeNotes` |
| `PointOfDelivery.MergeFields` | src/main/java/org/openlmis/prepacking/service/PointOfDeliveryService.java:113-175 | each of the sixteen listed fields takes the incoming value exactly when it is non-null. id, receiving user id, names and receiving date never change |
| `PointOfDelivery.MergeIdempotent` | src/main/java/org/openlmis/prepacking/service/PointOfDeliveryService.java:113-175 | merging the same incoming event twice is merging it once |
| `PointOfDelivery.MergeNothing` | src/main/java/org/openlmis/prepacking/service/PointOfDeliveryService.java:113-175 | an incoming event whose listed fields are all null changes nothing |
| `PointOfDelivery.UpdateKeepsReceipt` | src/main/java/org/openlmis/prepacking/service/PointOfDeliveryService.java:96-107 | an update never changes who received the delivery, when, or the id. It replaces the discrepancies with the DTO's, and an absent list with the empty list |
| `ContextBuilder.BuildContext` | src/main/java/org/openlmis/prepacking/service/PrepackingEventProcessContextBuilder.java:72-112 | the facility supplier always looks up the DTO's facility id. The user suppliers read the DTO's prepacker fields exactly when the caller is client-only, and the session user otherwise |
| `ContextBuilder.ClientOnlyTakesDtoUser` | src/main/java/org/openlmis/prepacking/service/PrepackingEventProcessContextBuilder.java:89-91 | with client-only authentication, the user id and names read are the DTO's prepacker fields, whatever the session |
| `ContextBuilder.SessionUserOtherwise` | src/main/java/org/openlmis/prepacking/service/PrepackingEventProcessContextBuilder.java:92-95 | otherwise the user id is the authenticated user's, and the names are "first, last" |
| `ContextBuilder.FacilityFromDto` | src/main/java/org/openlmis/prepacking/service/PrepackingEventProcessContextBuilder.java:104-109 | in both modes the facility is the lookup of the DTO's facility id |
| `ContextBuilder.ContextReadsOnly` | src/main/java/org/openlmis/prepacking/service/PrepackingEventProcessContextBuilder.java:72-112 | the built context depends only on the facility id and, for client-only, the prepacker fields. No lookup result enters it, because building calls no supplier |
| `ContextBuilder.DisplayNames` | src/main/java/org/openlmis/prepacking/service/PrepackingEventProcessContextBuilder.java:94-95 | the names are the two names and a two-character separator ("null" for a null name) |
| `ContextBuilder.DisplayNamesSeparated` | src/main/java/org/openlmis/prepacking/service/PrepackingEventProcessContextBuilder.java:94-95 | the first name, then ", ", then the last name, at known positions |
| `Validation.Run` | src/integration-test/java/org/openlmis/prepacking/service/StockEventValidationsServiceIntegrationTest.java:164-179 | the i-th invocation is the i-th stage's validator on the event, and no error iff no stage fails. On an error, the last invocation is the failing one and every earlier one passed |
| `Validation.Validate` | src/integration-test/java/org/openlmis/prepacking/service/StockEventValidationsServiceIntegrationTest.java:173 | the loop over the pipeline, with its invocation log, computes `Run` |
| `Validation.AllValidatorsRunOnce` | src/integration-test/java/org/openlmis/prepacking/service/StockEventValidationsServiceIntegrationTest.java:139-162 | when nothing fails, each of the 14 validators is invoked exactly once, with the same event, and nothing propagates |
| `Validation.FailureStops` | src/integration-test/java/org/openlmis/prepacking/service/StockEventValidationsServiceIntegrationTest.java:164-179 | the first failing stage is the last one invoked, and its error propagates |
| `Validation.ApprovedOrderableFailureSkipsLot` | src/integration-test/java/org/openlmis/prepacking/service/StockEventValidationsServiceIntegrationTest.java:164-179 | when only the approved-orderable check throws, its error propagates, it ran once, and the lot check never ran |
| `Validation.ResolveInjective` | src/integration-test/java/org/openlmis/prepacking/service/StockEventValidationsServiceIntegrationTest.java:128-136 | with the test's extension manager, distinct stages run distinct validators |
| `Validation.StageOf` | src/integration-test/java/org/openlmis/prepacking/service/StockEventValidationsServiceIntegrationTest.java:128-136 | every validator is reached by some stage; the three extension validators are reached through their point ids |
| `StatusEntities.StatusChange.constructor` | src/main/java/org/openlmis/prepacking/domain/status/StatusChange.java:77-84 | needs an event with a status. It copies the status and supervisory node from the event, stores the author as given, and starts with no rejections |
| `StatusEntities.NewStatusChange` | src/main/java/org/openlmis/prepacking/domain/status/StatusChange.java:86-88 | fails exactly for a null event or an event without status; otherwise a new status change as the constructor makes it |
| `StatusEntities.StatusChange.Export` | src/main/java/org/openlmis/prepacking/domain/status/StatusChange.java:95-101 | the exporter receives the stored created date, status, message, author and rejections |
| `StatusEntities.StatusMessage.constructor` | src/main/java/org/openlmis/prepacking/domain/status/StatusMessage.java:78-87 | needs an event with a status. It stores the event, change, author fields (null allowed) and body, and copies the status from the event |
| `StatusEntities.NewStatusMessage` | src/main/java/org/openlmis/prepacking/domain/status/StatusMessage.java:89-94 | fails exactly for a null event, null change, event without status or null body; otherwise a new message as the constructor makes it |
| `StatusEntities.StatusMessage.Export` | src/main/java/org/openlmis/prepacking/domain/status/StatusMessage.java:101-112 | the exporter receives exactly the stored fields plus the event id and status-change id |

## Left out

- I/O and failures of the remote services:
  - HTTP calls, token retry and HTTP-error mapping of the reference-data, stock and requisition
    clients are left out, and so are the web layer, logging and profiling.
  - The services are state (`Catalog`, `StockLedger`) or read-only inputs (`Env`).
  - A remote call never fails in the model.
- `PrepackSpec.AuthorizeItem`: how the stock service derives stock on hand from the submitted
  events is not in the client code. The answer is any function of the query and the ledger, so
  nothing is claimed about the total debited from one lot staying within its stock.
- Remote search semantics:
  - How the reference-data service filters its pages is not in the client code.
  - The model takes a page to be the catalog entries matching every sent parameter, in catalog
    (insertion) order.
  - Server-side paging, and an orderable PUT the server might reject, are not modelled.
- `PrepackSpec.ResolvePrepack`: the "tradeItem" identifier is held as an optional identifier.
  A non-UUID string, which would make `UUID.fromString` throw, is not modelled; only its absence
  is (`TradeItemIdentifierMissing`).
- Exceptions:
  - An uncaught Java exception (null bulk lot, bulk orderable, facility, program or trade-item
    identifier) is an outcome value.
  - Transaction rollback is not modelled; the source shows none around the loop.
- `Prepacking.PrepackingService.AuthorizePrepack`:
  - On an exception the model keeps the remarks written on the stored event so far. The source
    never saves the event, so whether they survive depends on a transaction the source does
    not show: one that rolls back on the exception would discard them. Keeping them is the
    model's choice.
  - The source never calls `save` on the authorized event; it mutates the entity it loaded.
    The model writes that entity back into the repository map. That treats the loaded entity
    as the stored one, as a managed persistence context does.
  - It requires every line item's `prepackSize * numberOfPrepacks` to fit a Java `int`
    (`QuantitiesFit`). 32-bit wrap-around of that product is not modelled.
- A null `Integer` stock on hand, prepack size or number of prepacks would throw on unboxing.
  The model has these fields non-null.
- Timestamps and metadata:
  - The orderable's `meta` timestamp, `ZonedDateTime.now()` and `LocalDate.now()` are
    parameters.
  - Created dates of the status entities are not set by their constructors and stay absent.
  - `extraData` is not modelled.
- Source inconsistencies:
  - The service and the context builder read prepacker fields and a draft status message that
    the shown entity and DTO classes do not declare.
  - The entity stores `status` as a string while the service sets the enum.
  - The model uses one event type holding the union of the fields the services use, with the
    status as an enum. The entity's `userId` and `dateAuthorised` are used by no core
    operation and are left out.
- `StatusEntities.StatusChange`:
  - Its status column is a string while its exporter takes the enum; the model keeps the enum.
  - The event reference is held as a value, not as a shared object.
  - The fields of `Rejection` are not modelled.
- `ContextBuilder.BuildContext`:
  - The suppliers are values, read later against a `Session` (authenticated user and facility
    service).
  - `LazyResource`'s memoization is not in the shown source, so nothing is claimed about how
    often a supplier is read.
  - A method reference captures the DTO, which the model treats as a value: a later change to
    the DTO is not seen.
- `updatePrepackingEvent` and `updatePointOfDeliveryEvent` set the built context on the DTO.
  The model passes the DTO with the context in place as a value.
  - The point-of-delivery context builder is not part of this model. Its context is a
    parameter of `UpdatePointOfDeliveryEvent`.
- The DTO's own `toDiscrepancy` and `rejectionReasonService.findOne` are function parameters
  of the point-of-delivery service.
- `Validation.Validate`:
  - The stock-event validation service class is not part of this model.
  - Its pipeline order is a parameter constrained by `WellFormed`: each of the 14 stages once,
    with the approved-orderable check ahead of the lot check, as the fail-fast test requires.
  - The validators' own rules are not modelled; whether a validator throws is the `fails`
    parameter.
  - The extension manager's fallback behaviour is not shown; `Registry` is any mapping from
    point ids to validators.
- Locking or retry around find-then-create is not modelled, because the source has none. Two
  concurrent authorizations could create duplicate prepacks.
- The processor (`PrepackingEventProcessor`) and the controller are left out: they only wire
  the operations above to HTTP and the repository.
