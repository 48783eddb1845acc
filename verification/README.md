# GreenTill core, modelled in Dafny

GreenTill is a point-of-sale and merchant console for eco-minded shops. This
project models its core logic:

- the till's cart, search and checkout;
- the recording of a sale and the dashboard figures computed from sales;
- the serverless key-value store and its HTTP function;
- the browser storage service: seeding, the merchant-reset rule and read fallbacks;
- the engagement suite: the feature licence/activation cascade, template and
  attachment edits, the loyalty-configuration merge and the preview substitution;
- the carbon-offset settings;
- the administrator's fleet and ticket figures;
- the support-queue filter;
- the merchant onboarding form;
- the customer ordering and VIP rule;
- the inventory classifiers.

One Dafny module per source file:

| module | file | source |
|---|---|---|
| `Wrappers` | `wrappers.dfy` | Option and Result (a thrown error with its message) |
| `Json` | `json.dfy` | JSON values as stored and sent; JavaScript falsiness |
| `Types` | `types.dfy` | the records of `types.ts` |
| `Fixtures` | `fixtures.dfy` | the seed data of `constants.tsx` |
| `Pos` | `pos.dfy` | `components/POS.tsx`; the cart is a mutable field of class `Till` |
| `App` | `app.dfy` | `App.tsx`; class `App` holds the root state |
| `Dashboard` | `dashboard.dfy` | `components/Dashboard.tsx` |
| `StateStore` | `state_store.dfy` | `netlify/functions/lib/db.ts`; class `StateTable` |
| `StateHandler` | `state_handler.dfy` | `netlify/functions/state.ts` |
| `StorageService` | `storage_service.dfy` | `services/db.ts`; class `LocalStore` is localStorage |
| `EngagementManager` | `engagement_manager.dfy` | `components/EngagementManager.tsx` |
| `CarbonManager` | `carbon_manager.dfy` | `components/CarbonManager.tsx` |
| `AdminDashboard` | `admin_dashboard.dfy` | `components/AdminDashboard.tsx` |
| `SupportTickets` | `support_tickets.dfy` | `components/SupportTickets.tsx` |
| `OnboardingForm` | `onboarding_form.dfy` | `components/MerchantOnboardingForm.tsx`; class `Form` |
| `CustomerInsights` | `customer_insights.dfy` | `components/CustomerInsights.tsx`; in-place sort on an array |
| `Inventory` | `inventory.dfy` | `components/Inventory.tsx` |

Money, eco figures and offsets are Dafny `real`. Quantities, stock, scores and
visit counts are `int`.

### Feature cascade

`updateRecursive` walks child features without a visited set when it
deactivates. A deactivation therefore ends only when the `parentId` links
below the target are acyclic. The model requires, for deactivation only, a
ghost ranking in which every child ranks below its parent. An activation
touches only the target and needs no ranking.
`RankedHasNoParentCycle` shows that such a ranking rules out cycles.

The walk is a pair of mutually recursive methods over an `array` of features,
proved equal to a specification function (`Toggled`). The cascade lemmas are
stated about that function.

### Behaviour worth knowing

- **Two eco figures for one sale**: the till shows the eco score times 0.01
  times the quantity of each line (`components/POS.tsx:43`). The recorded
  transaction adds the eco score times 0.01 once per line, whatever the
  quantity (`App.tsx:29`). `App.EcoImpactUndercountsQuantity` shows that the
  two differ for two toothbrushes.
- **Stock**: `handleCompleteSale` never decrements any product's stock
  (`App.tsx:25-45`); `App.App.CompleteSale` leaves `products` unchanged.
- **Stored null**: a key whose stored document is JSON `null` reads back as
  404 (`netlify/functions/state.ts:34`). `ensureRemote` re-seeds such a key
  (`services/db.ts:42`).
- **Merchant reset in local mode** (`services/db.ts:70-74`): a stored
  merchant list is kept only when it holds a merchant named 'Des Kelly
  Interiors' and has at least ten entries. A list without that merchant, or
  one with fewer than ten entries, is replaced by the fixtures
  (`StorageService.InitMerchantsRule`). No merchant in the fixtures has that
  name (`StorageService.MockMerchantsLackDesKelly`), so once the fixtures are
  stored, every later local initialisation rewrites them again.
- **Battery flag** (`components/AdminDashboard.tsx:166`): a level is flagged
  when it is present, non-zero and below 20. Negative levels are flagged
  too; a level of 0 is not.

## Model

| member | source | states |
|---|---|---|
| EngagementManager.FindIndex | components/EngagementManager.tsx:20-21 | -1 exactly when no feature has the id, otherwise the first index holding it |
| EngagementManager.ChildIds | components/EngagementManager.tsx:31 | an id is listed exactly when some feature with that id names the parent |
| EngagementManager.FlagAt | components/EngagementManager.tsx:23-28 | setting the flags at a set of indices keeps the length and every id and parent link |
| EngagementManager.UpdateRecursive | components/EngagementManager.tsx:19-33 | the in-place walk leaves the array equal to the specification: the flags set at every first-occurrence index the walk reaches |
| EngagementManager.VisitChildren | components/EngagementManager.tsx:30-32 | after deactivating the node, visiting each child in turn deactivates the whole subtree |
| EngagementManager.HandleToggleFeature | components/EngagementManager.tsx:16-40 | the merchant comes back unchanged except that its features are the cascade result |
| EngagementManager.ToggleUnknownIdIsNoop | components/EngagementManager.tsx:20-21 | toggling an id no feature has changes nothing |
| EngagementManager.ActivationSetsOnlyTarget | components/EngagementManager.tsx:26-30 | activating sets isActive on the first feature with the id and changes no other feature, children included |
| EngagementManager.GrantSetsOnlyTargetLicence | components/EngagementManager.tsx:23-24 | granting a licence sets isLicensed on the first feature with the id only |
| EngagementManager.DeactivationCascades | components/EngagementManager.tsx:26-32 | deactivating clears isActive on exactly the first-occurrence features the id reaches through parent links; nothing else changes |
| EngagementManager.RevocationCascades | components/EngagementManager.tsx:23-25 | revoking clears both isLicensed and isActive on exactly the reached first-occurrence features |
| EngagementManager.ReachesTransitive | components/EngagementManager.tsx:31 | the descendant relation the cascade follows is transitive |
| EngagementManager.DescendantRanksBelow | components/EngagementManager.tsx:31 | every proper descendant ranks strictly below its ancestor, so the walk terminates |
| EngagementManager.RankedHasNoParentCycle | components/EngagementManager.tsx:31 | under a ranking, no feature's parent is its own descendant |
| EngagementManager.GrandchildOfDeactivatedIsInactive | components/EngagementManager.tsx:30-32 | a grandchild of a deactivated or revoked feature ends inactive |
| EngagementManager.SelectedFeature | components/EngagementManager.tsx:49 | none only for an empty list; otherwise the first feature with the selected id, falling back to the first feature |
| EngagementManager.TemplateUpdateTouchesOnlySelected | components/EngagementManager.tsx:51-55 | features with the selected id get the new template field; all other features are unchanged |
| EngagementManager.TemplateUpdateWithoutMatchIsNoop | components/EngagementManager.tsx:52-55 | when no feature has the selected id the list is unchanged |
| EngagementManager.TemplateUpdateKeepsMerchant | components/EngagementManager.tsx:56-59 | a template edit changes only the feature list of the merchant |
| EngagementManager.WithoutAttachmentMembers | components/EngagementManager.tsx:68 | the filter keeps exactly the attachments with a different id |
| EngagementManager.WithoutAttachmentSplits | components/EngagementManager.tsx:68 | the filter distributes over concatenation |
| EngagementManager.WithoutAbsentAttachment | components/EngagementManager.tsx:68 | filtering an id that is absent changes nothing |
| EngagementManager.RemoveUndoesAdd | components/EngagementManager.tsx:62-69 | removing a newly added attachment with a fresh id restores the list |
| EngagementManager.AddAttachmentAppends | components/EngagementManager.tsx:50-64 | add appends to the selected feature's attachments (missing list read as empty); every feature with the selected id gets that list, built from the first such feature, and keeps its other fields; other features are unchanged |
| EngagementManager.RemoveAttachmentFilters | components/EngagementManager.tsx:50-68 | remove filters the selected feature's attachments by id; every feature with the selected id gets that list, built from the first such feature, and keeps its other fields; other features are unchanged |
| EngagementManager.AttachmentHandlersThrowOnEmptyList | components/EngagementManager.tsx:62-69 | with no features both handlers throw, since the selected feature is undefined |
| EngagementManager.LoyaltyUpdateReplacesPresentFields | components/EngagementManager.tsx:42-47 | each field present in the update replaces the config's, each absent one is kept, and the rest of the merchant is unchanged |
| EngagementManager.LoyaltyUpdateIdempotent | components/EngagementManager.tsx:45 | the empty update changes nothing, and applying an update twice equals applying it once |
| EngagementManager.LoyaltyUpdatesCompose | components/EngagementManager.tsx:45 | two successive updates equal one combined update in which the later fields win |
| EngagementManager.ChoosingProgramKeepsOtherDesign | components/EngagementManager.tsx:277-288 | the visit card sets the visit type and keeps the coupon design; the spend card sets the spend type and keeps the stamp design |
| EngagementManager.ReplaceFirstWithoutOccurrence | components/EngagementManager.tsx:236-238 | a placeholder that never occurs leaves the text unchanged |
| EngagementManager.ReplaceFirstAtFirstOccurrence | components/EngagementManager.tsx:236-238 | only the first occurrence of the placeholder is replaced; the text around it is kept |
| Pos.IndexOf | components/POS.tsx:21 | -1 exactly when the id is not in the cart, otherwise its first position |
| Pos.FindProduct | components/POS.tsx:38 | none exactly when no product has the id; otherwise the first product with it |
| Pos.CartItems | components/POS.tsx:37-40 | one line per cart entry, in order, with the entry's count and the first catalogue product holding the entry's id |
| Pos.LowerIsIdempotent | components/POS.tsx:15 | lower-casing leaves no ASCII capital and a second pass changes nothing |
| Pos.SearchIgnoresCase | components/POS.tsx:15 | the search gives the same answer for a term and its lower-cased form, and for a name and its lower-cased form |
| Pos.FilteredProductsMembers | components/POS.tsx:14-16 | a product is shown exactly when its lower-cased name contains the lower-cased term |
| Pos.EmptySearchShowsAll | components/POS.tsx:15 | the empty term shows every product in order |
| Pos.AddToCartCounts | components/POS.tsx:18-23 | add raises the id's count by one, keeps every other count and keeps the cart valid |
| Pos.RemoveFromCartCounts | components/POS.tsx:25-35 | remove lowers a count above one, deletes an entry at one, keeps every other count and keeps the cart valid |
| Pos.RemoveAbsentIsNoop | components/POS.tsx:28-31 | removing an id that is not in the cart changes nothing |
| Pos.AddThenRemoveRestores | components/POS.tsx:18-35 | remove undoes add exactly, order included |
| Pos.SubtotalAppend | components/POS.tsx:42 | the subtotal of two line lists is the sum of their subtotals |
| Pos.SubtotalUpdate | components/POS.tsx:42 | changing one line changes the subtotal by that line's difference |
| Pos.SubtotalAfterAdd | components/POS.tsx:18-42 | adding a catalogue product raises the subtotal by its price |
| Pos.EmptyCartTotals | components/POS.tsx:42-43 | an empty cart has subtotal and eco savings 0 |
| Pos.TotalsNonNegative | components/POS.tsx:42-43 | with non-negative prices and scores both totals are non-negative |
| Pos.Till.constructor | components/POS.tsx:11-12 | the till starts with an empty cart and an empty search term |
| Pos.Till.AddToCart | components/POS.tsx:18-23 | the cart becomes the added cart; the search term is kept |
| Pos.Till.RemoveFromCart | components/POS.tsx:25-35 | the cart becomes the reduced cart; the search term is kept |
| Pos.Till.SetSearchTerm | components/POS.tsx:12 | only the search term changes |
| Pos.Till.Checkout | components/POS.tsx:45-49 | an empty cart gives no sale; otherwise the sale is the cart's priced lines, and the cart is emptied |
| App.NewTransaction | App.tsx:25-41 | the transaction has the given id, one item per line with carbon 0.1, the price-times-quantity total, the per-line eco figure, offset 1.00 and the matched flag |
| App.SaleTotalIsCartSubtotal | App.tsx:26 | the recorded total equals the till's subtotal of the cart |
| App.EcoImpactIgnoresQuantity | App.tsx:27-30 | changing a line's quantity does not change the recorded eco figure |
| App.UnknownProductAddsNoEco | App.tsx:29 | a line whose product is not in the catalogue adds 0 |
| App.EcoImpactMatchesCartForSingleUnits | App.tsx:27-30 | when every count is one, the recorded eco figure equals the till's eco savings |
| App.EcoImpactUndercountsQuantity | App.tsx:29 | two toothbrushes show 1.90 at the till but are recorded as 0.95 |
| App.App.constructor | App.tsx:18-21 | dashboard view, administrator role, seed catalogue, no transactions |
| App.App.CompleteSale | App.tsx:25-45 | exactly one transaction is appended; products, view and role are unchanged |
| App.App.ChangeRole | App.tsx:119 | the role is set and the view returns to the dashboard |
| App.App.SetActiveView | App.tsx:118 | only the view changes |
| Dashboard.NoTransactionsNoFigures | components/Dashboard.tsx:14-17 | with no transactions all four figures and the CO2 total are 0 |
| Dashboard.StatsAfterAppend | components/Dashboard.tsx:14-17 | each sum grows by the new transaction's field; the match grows only for a matched transaction |
| Dashboard.MatchAtMostOffset | components/Dashboard.tsx:16-17 | with non-negative contributions, 0 ≤ merchant match ≤ customer offset |
| Dashboard.AllMatchedMatchesOffset | components/Dashboard.tsx:16-17 | when every transaction is matched, the match equals the offsets |
| Dashboard.RecordedSaleRaisesFigures | components/Dashboard.tsx:14-54 | a recorded sale adds its total to revenue, 1.00 to offsets and to the match, and its eco figure plus 5 to the CO2 total |
| StateStore.Upserted | netlify/functions/lib/db.ts:31-38 | the key now holds the data; every other row is kept |
| StateStore.ReadAfterUpsert | netlify/functions/lib/db.ts:24-38 | a read after a write returns what was written |
| StateStore.LastWriteWins | netlify/functions/lib/db.ts:35-37 | of two writes to a key, the second wins |
| StateStore.UpsertKeepsOtherKeys | netlify/functions/lib/db.ts:31-38 | a write leaves the reads of other keys unchanged |
| StateStore.StoredNullLooksAbsent | netlify/functions/lib/db.ts:28 | a stored null reads back like a missing key |
| StateStore.StateTable.constructor | netlify/functions/lib/db.ts:14-22 | before creation there is no table and no row |
| StateStore.StateTable.EnsureStateTable | netlify/functions/lib/db.ts:14-22 | the table exists afterwards and its rows are unchanged |
| StateStore.StateTable.ReadState | netlify/functions/lib/db.ts:24-29 | returns the read of the key |
| StateStore.StateTable.UpsertState | netlify/functions/lib/db.ts:31-38 | the rows become the upserted rows |
| StateHandler.Handle | netlify/functions/state.ts:11-80 | the new table and the response are those of the dispatch on the request |
| StateHandler.OptionsIsPreflight | netlify/functions/state.ts:12-18 | OPTIONS answers 204 with no body and writes nothing, whatever the key |
| StateHandler.MissingKeyIsRejected | netlify/functions/state.ts:20-27 | a missing or empty key answers 400 and writes nothing |
| StateHandler.GetReadsStore | netlify/functions/state.ts:32-46 | GET writes nothing, answers 404 exactly when the read is null, and otherwise 200 with the document |
| StateHandler.PutWithoutDataIsRejected | netlify/functions/state.ts:49-56 | a PUT with no body, a falsy body or no data property answers 400 and writes nothing |
| StateHandler.PutStores | netlify/functions/state.ts:58-64 | a valid PUT answers 200, stores the data under the key and leaves every other key's read unchanged |
| StateHandler.OtherMethodNotAllowed | netlify/functions/state.ts:67-71 | any other method with a key answers 405 |
| StateHandler.ErrorsAnswer500 | netlify/functions/state.ts:72-79 | a failing database or an unparsable PUT body answers 500 and writes nothing |
| StateHandler.PutThenGet | netlify/functions/state.ts:32-65 | a GET after a valid PUT returns the stored data, or 404 when it was null |
| StorageService.DesKellyScan | services/db.ts:71 | true exactly when a 'Des Kelly Interiors' merchant comes before any null element; false exactly when there is neither |
| StorageService.MockMerchantsLackDesKelly | services/db.ts:71 | the merchant fixtures contain no 'Des Kelly Interiors' |
| StorageService.InitMerchantsRule | services/db.ts:70-74 | the stored merchants are kept only when Des Kelly is present and there are at least 10; otherwise the fixtures are written |
| StorageService.InitFailsOnlyOnBadMerchants | services/db.ts:70-71 | local init throws exactly when the stored merchants are not a list or hold a null before any match |
| StorageService.InitSeedsOnlyAbsentKeys | services/db.ts:76-87 | each of the four other collections is seeded only when absent; unrelated keys are untouched |
| StorageService.InitIdempotent | services/db.ts:57-88 | a second local init changes nothing |
| StorageService.InitOnEmptyStore | services/db.ts:70-87 | on an empty store, local init writes the five seeds |
| StorageService.SaveThenGetLocal | services/db.ts:47-55 | a local read after a save returns the saved document |
| StorageService.FetchOutcomeExplainsAnswer | services/db.ts:16-24 | the fetch throws exactly on a status that is neither 404 nor ok, and a non-null document comes only from an ok answer carrying that document |
| StorageService.RemoteFetchReadsTable | services/db.ts:16-24 | with the database up, a remote fetch returns the stored read; with it down, it throws |
| StorageService.RemoteFetchEmptyKeyThrows | services/db.ts:19-21 | fetching the empty key throws, because the function answers 400 |
| StorageService.RemoteSaveWrites | services/db.ts:26-38 | a remote save upserts the data under the key |
| StorageService.EnsureRemoteSeedsOnlyMissing | services/db.ts:40-45 | ensure writes the fallback only when the key reads null |
| StorageService.EnsureRemoteIdempotent | services/db.ts:40-45 | with a non-null fallback, a second ensure changes nothing |
| StorageService.InitRemoteSeedsMissing | services/db.ts:59-68 | remote init seeds each of the five keys that reads null, and nothing else |
| StorageService.InitRemoteNeedsDatabase | services/db.ts:59-68 | remote init throws when the database is down |
| StorageService.RemoteGetFallsBack | services/db.ts:90-93 | a remote getter returns the empty list when the key is missing, and the stored document when it is truthy |
| StorageService.LocalStore.constructor | services/db.ts:47-55 | localStorage starts with the given items |
| StorageService.LocalStore.GetLocal | services/db.ts:47-51 | returns the local read |
| StorageService.LocalStore.SaveLocal | services/db.ts:53-55 | the key now holds the data |
| StorageService.LocalStore.Init | services/db.ts:70-87 | on failure nothing is stored; on success the items are the local init result |
| StorageService.Init | services/db.ts:57-88 | remote mode changes only the remote table, as remote init, and a failed remote init leaves it unchanged; local mode changes only localStorage, as local init |
| StorageService.RemoteFetch | services/db.ts:16-24 | returns the fetch outcome and writes nothing |
| StorageService.RemoteSave | services/db.ts:26-38 | on success the table is the saved table; otherwise it throws and the table is unchanged |
| StorageService.EnsureRemote | services/db.ts:40-45 | on success the table is the ensured table; otherwise it throws and the table is unchanged |
| StorageService.GetCollection | services/db.ts:90-138 | remote getters return the remote read with the empty-list fallback; local getters return the local read; nothing is written |
| StorageService.SaveCollection | services/db.ts:97-124 | remote saves change only the table, and a failed one leaves it unchanged; local saves change only the local key |
| CarbonManager.ToggleFlipsMembership | components/CarbonManager.tsx:10-12 | the toggled NGO is selected afterwards exactly when it was not before; others keep their selection |
| CarbonManager.ToggleKeepsOthersInOrder | components/CarbonManager.tsx:10-12 | apart from the toggled id, the list is unchanged, order included |
| CarbonManager.ToggleTwiceAbsentRestores | components/CarbonManager.tsx:10-12 | toggling an unselected NGO twice restores the list |
| CarbonManager.ToggleTwicePresentMovesToEnd | components/CarbonManager.tsx:10-12 | toggling a selected NGO twice moves it to the end, once |
| CarbonManager.WithoutMembers | components/CarbonManager.tsx:11 | the filter keeps exactly the other ids |
| CarbonManager.SwitchesFlipOneFlag | components/CarbonManager.tsx:31-44 | each switch flips its own flag and nothing else, and flipping twice is the identity |
| AdminDashboard.AllDevicesMembers | components/AdminDashboard.tsx:16 | a device is in the fleet exactly when some branch of some merchant lists it |
| AdminDashboard.AllDevicesAppend | components/AdminDashboard.tsx:16 | the fleet of concatenated merchant lists is the concatenation of the fleets, in merchant order |
| AdminDashboard.BranchDevicesMembers | components/AdminDashboard.tsx:16 | a device is in a merchant's devices exactly when one of its branches lists it |
| AdminDashboard.StatsCoverFleet | components/AdminDashboard.tsx:18-23 | the four status counts sum to the fleet size |
| AdminDashboard.AlertsAreOfflineAndPoweredOff | components/AdminDashboard.tsx:50 | the alert count is the offline count plus the powered-off count |
| AdminDashboard.DistinctIsSet | components/AdminDashboard.tsx:25 | the deduplicated list has no repeats and holds exactly the categories that occur |
| AdminDashboard.CategoryCountsCoverMerchants | components/AdminDashboard.tsx:25-28 | the per-category counts sum to the number of merchants |
| AdminDashboard.CategoryChart | components/AdminDashboard.tsx:25-28 | one entry per distinct category, every merchant's category listed, and counts summing to the merchant count |
| AdminDashboard.OpenTicketsIsOpenFilter | components/AdminDashboard.tsx:30 | the open-ticket count equals the length of the support queue's OPEN filter |
| AdminDashboard.OpenTicketsPositive | components/AdminDashboard.tsx:30 | the count is positive exactly when some ticket is open |
| AdminDashboard.OpenTicketsAppend | components/AdminDashboard.tsx:30 | appending a ticket raises the count by one exactly when the ticket is open |
| AdminDashboard.OpenTicketBadgesItsDevice | components/AdminDashboard.tsx:136 | every open ticket, anywhere in the list, puts the TICKET badge on the device it names |
| AdminDashboard.InProgressTicketBadgedButNotQueued | components/AdminDashboard.tsx:30-136 | appending an in-progress ticket badges its device and leaves the open count unchanged |
| AdminDashboard.LowBatteryRule | components/AdminDashboard.tsx:166 | for non-negative levels, the flag shows exactly for levels 1 to 19 |
| AdminDashboard.SignalBarRule | components/AdminDashboard.tsx:159 | bar i is lit exactly when 20·i is below the strength; without a SIM no bar is lit |
| AdminDashboard.SignalBarsFromTheLeft | components/AdminDashboard.tsx:159 | the lit bars form a prefix |
| SupportTickets.AllShowsEverything | components/SupportTickets.tsx:15 | 'ALL' shows every ticket in the original order |
| SupportTickets.StatusFilterSelects | components/SupportTickets.tsx:15 | a status filter equals the independent selection of the tickets with that status, in order |
| SupportTickets.StatusFilterMembers | components/SupportTickets.tsx:15 | a ticket is shown exactly when it has the status |
| SupportTickets.StatusFiltersPartition | components/SupportTickets.tsx:15-25 | the three status filters partition the tickets: sizes add up and the multisets sum to the list |
| SupportTickets.FilteredAppend | components/SupportTickets.tsx:15 | filtering distributes over concatenation |
| SupportTickets.MerchantName | components/SupportTickets.tsx:13 | the first merchant with the id gives its name; a missing merchant or an empty name gives 'Unknown' |
| SupportTickets.AlertColourFollowsOpenFilter | components/SupportTickets.tsx:15-63 | every ticket under the OPEN filter shows the alert colour, none under IN_PROGRESS or CLOSED does, and under ALL exactly those also under OPEN do |
| OnboardingForm.WithField | components/MerchantOnboardingForm.tsx:31 | the named field takes the value and every other field keeps its own |
| OnboardingForm.CompleteIgnoresCategory | components/MerchantOnboardingForm.tsx:36 | the guard requires every field except the category to be non-empty |
| OnboardingForm.ClearingRequiredFieldBlocksSubmit | components/MerchantOnboardingForm.tsx:20-36 | the blank form and any form with a cleared required field fail the guard |
| OnboardingForm.Form.constructor | components/MerchantOnboardingForm.tsx:20-28 | empty text fields, category 'Grocery', no error, not submitting |
| OnboardingForm.Form.HandleChange | components/MerchantOnboardingForm.tsx:30-32 | only the named field of the form changes |
| OnboardingForm.Form.BeginSubmit | components/MerchantOnboardingForm.tsx:34-44 | an incomplete form sets the required-fields message and makes no call; a complete one clears the error, sets submitting and records one call with the form |
| OnboardingForm.Form.SettleSubmit | components/MerchantOnboardingForm.tsx:45-50 | a failed call sets the fixed failure message; submitting always returns to false |
| OnboardingForm.Form.HandleSubmit | components/MerchantOnboardingForm.tsx:34-51 | the whole submit: no call on an incomplete form; otherwise exactly one call, then not submitting, with the failure message only when the call fails |
| CustomerInsights.SortByVisits | components/CustomerInsights.tsx:27 | the array is reordered in place into non-increasing visit counts, as a permutation of the same customers |
| CustomerInsights.Insert | components/CustomerInsights.tsx:27 | one insertion step extends the ordered prefix and keeps the same customers |
| CustomerInsights.Swap | components/CustomerInsights.tsx:27 | exchanging two positions keeps the same customers |
| CustomerInsights.StatusLabel | components/CustomerInsights.tsx:57-58 | the label is 'VIP' exactly above 15 visits, otherwise 'Regular' |
| CustomerInsights.VisitBarRule | components/CustomerInsights.tsx:45 | bar i is lit exactly when 5·i is below the visit count |
| CustomerInsights.VipBoundary | components/CustomerInsights.tsx:45-58 | 15 visits is Regular and 16 is VIP; a VIP lights at least four bars; all five are lit only above 20 visits |
| Inventory.Band | components/Inventory.tsx:55 | green exactly above 80, yellow exactly for 51 to 80, red exactly at 50 and below |
| Inventory.BandMonotone | components/Inventory.tsx:55 | a higher score never gets a worse band |
| Inventory.LowStockAntitone | components/Inventory.tsx:47 | fewer units never clear the badge and more never set it; it flips between 19 and 20 units |
| Inventory.SeedCatalogueHealthy | constants.tsx:5-9 | none of the seed products is low on stock and all have green eco bars |

## Left out

- Rendering, layout, navigation lists, charts, CORS headers and console logging are not modelled.
- DeviceManager, ReceiptManager, Reports, the Gemini service and the seed script are not part of this model.
- I/O is not modelled:
  - The network, `fetch` and the database driver are replaced by the HTTP function applied to a map.
  - `localStorage` is a map from key to JSON document.
  - `JSON.stringify` and `JSON.parse` are the identity on documents.
  - The empty stored string, which `getLocal` would treat as missing, cannot arise.
- `Math.random` ids (transactions, attachments) are parameters.
- Timestamps (`timestamp`, `lastUpdated`, `createdAt`) and the sale alert are not modelled.
- Numbers are exact `real`s. Floating-point rounding and `toFixed` display rounding are not modelled.
- Pos.Lower: lower-cases ASCII letters only; Unicode case mapping is not modelled.
- Pos.CartItems: lists the cart in insertion order. `Object.entries` lists integer-like keys in ascending order first.
- Pos.CartItems: requires every cart id to be in the catalogue. The source's non-null assertion on `find` makes the same assumption.
- StorageService.InitRemote: runs the five `ensureRemote` calls one after another. The source runs them concurrently with `Promise.all`. They touch different keys, so only which error is reported first can differ.
- StorageService.FetchOutcome: treats a 2xx answer without a `data` field as null. The function never sends such an answer.
- EngagementManager.UpdateRecursive: the feature objects are record values. The source copies the array but mutates the shared feature objects, which the merchant passed in also holds. The model does not capture that aliasing.
- EngagementManager.HandleToggleFeature: a deactivation requires a ghost ranking of all parent links. A deactivation on a list with any cycle of parent links is therefore not modelled. That includes a cycle outside the target's subtree, which the source handles; a cycle below the target makes the source recurse without end. Activation needs no ranking and is modelled on any list.
- CustomerInsights.SortByVisits: stability among equal visit counts is not stated. The insertion order it uses is stable, as `Array.prototype.sort` is.
- OnboardingForm.Form: `onCreate` is outside the model. Each call is recorded, and whether it throws is a parameter.
- AdminDashboard.LowBatteryRule: states the rule for non-negative levels only; negative levels are flagged too, as the predicate shows.
