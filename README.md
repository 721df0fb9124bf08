# upforaride — a Dafny model of the shared-car cost splitter

upforaride lets a small group share one car. Each member records rides as two
odometer readings. They also record variable costs (fuel, insurance, other) and
payments into a wear reserve. The app then settles up:

- Each member owes a share of the cost pool in proportion to the kilometres they drove.
- Each member owes wear at a fixed rate per km, against what they paid into the reserve.

This project models the core of that logic in Dafny and proves its properties:

- **Distance attribution** (`RideShares`, `apps/web/src/utils/rideShares.ts`):
  - Only closed rides with a positive distance count.
  - A ride's distance is split equally among its participants.
  - A legacy ride with no participants falls back to its initiator.
- **Settle-up overview and statistics** (`Settlement`, `Stats`, the two pages):
  - Per user: km, costs paid, fair share, net, wear owed, wear paid and wear net.
  - As written, both pages credit the whole distance of a ride to its initiator.
- **Ride lifecycle** (`RideLifecycle`, `RidePage.tsx`):
  - The latest ride, and the open ride of the selected user.
  - How a submitted odometer reading becomes an error or a list of store calls.
- **Forms** (`FormInput`, `CostForm`, the wear-payment form in `Stats`):
  - Each form either shows an error or records exactly one cost or payment.
- **Snapshot stores**:
  - `WebStore` is the server-backed store. It replaces the whole snapshot on each load.
  - `LegacyStore` is the older local store. It appends, or replaces by id.
  - Both share the listener registry in `Listeners`.
- **Worker helpers** (`Worker`, `apps/worker/worker.ts`):
  - The odometer digit heuristic run over OCR text.
  - The default wear rate.
  - The CORS allow-origin mapping.
- **Records and rosters** (`Domain`, `LegacyDomain`): the two `types.ts` files.

Representation:

- Kilometres and money are `real`, so sums and proportional shares are exact.
- Timestamps are `int`.
- `Number(text)` on form input is a parameter of type `string -> Option<real>`. `None` stands for NaN.
- `JSON.parse` of a participant list is a parameter that yields `Some(list)` only when the text parses to an array.
- Listeners are identified by ids. Calling a listener is recorded as a `Delivery(listener, snapshot)`.
- A network load is one atomic step. Its outcome is an `Option<BackendState>`, with `None` for a failed request.
- Clock readings and generated ids are parameters.

Where the code and the design text disagree, the model follows the code:

- Both pages credit a ride's whole distance to `r.userId`. They never use the participant split of `rideShares.ts`.
  - `Settlement.SharesAgreeWithOwnerKm` proves that the two agree when every ride's participants are just its initiator.
- Participants are a list and may be empty. An id listed twice gets two shares.
- Starting a ride closes only the single latest ride, and only if it is open. An older open ride stays open.
  - "At most one open ride" is therefore not automatic.
  - `RideLifecycle.StartKeepsOnlyLatestOpen` and `RideLifecycle.StopClosesOpenRide` prove it is preserved under the conditions the form relies on.
- `updateConfig` changes the local snapshot without any request to the backend.
- Any `mode` parameter other than a missing one, `""` or `"start"` selects stop mode.

## Model

| member | source | states |
|---|---|---|
| Domain.ClosedDistance | apps/web/src/utils/rideShares.ts:22-25 | A ride counts exactly when it is closed and `endKm > startKm`. Its distance is then positive and equals `endKm - startKm`. |
| Domain.TotalDistanceNonNegative | apps/web/src/pages/SettlePage.tsx:29-34 | The total counted distance is never negative. It is 0 exactly when no ride counts. |
| Domain.RosterWellFormed | apps/web/src/types.ts:52-58 | The roster has five users with distinct, non-empty ids. |
| Domain.MergeConfig | apps/web/src/dataStore.ts:136-141 | `{ ...config, ...patch }`: a given field overrides and a missing one keeps the old config. |
| Domain.MergeConfigTwice | src/dataStore.ts:83-87 | Two merges in a row equal one merge in which the later patch wins. |
| RideShares.GetParticipants | apps/web/src/utils/rideShares.ts:6-12 | Non-empty participants are returned unchanged, otherwise exactly `[userId]`. The result is never empty. |
| RideShares.WithRideShares | apps/web/src/utils/rideShares.ts:22-25 | A ride that is open, or whose distance is not positive, leaves the totals untouched. |
| RideShares.CreditAt | apps/web/src/utils/rideShares.ts:30-32 | Each occurrence of a key among the participants adds one share. Keys not listed keep their value, and the key set grows by the participants. |
| RideShares.CreditSum | apps/web/src/utils/rideShares.ts:30-32 | The loop adds exactly `participants.length × share` to the sum of all entries. |
| RideShares.RideSharesAt | apps/web/src/utils/rideShares.ts:27-32 | One ride adds each key's shares, leaves non-participants unchanged and never decreases an entry. A key is created only for a participant of a counted ride. |
| RideShares.RideSharesConserve | apps/web/src/utils/rideShares.ts:27-32 | One counted ride adds exactly its distance to the sum of the map. A skipped ride adds nothing. |
| RideShares.ThreeWaySplit | apps/web/src/utils/rideShares.ts:27-32 | A 0→90 km ride shared by A, B and C gives each 30 km. |
| RideShares.InitialTotals | apps/web/src/utils/rideShares.ts:43-46 | The start map has exactly the known ids as keys, each at 0. |
| RideShares.FoldSharesAt | apps/web/src/utils/rideShares.ts:48-50 | After the ride loop, each entry equals its start value plus the user's summed shares. The keys are the start keys plus the participants of counted rides. |
| RideShares.KmByUserAt | apps/web/src/utils/rideShares.ts:39-52 | `computeKmByUser` has an entry for every known id and for every participant of a counted ride, and no other. Each entry is that user's summed shares. |
| RideShares.IdleUserHasNoKm | apps/web/src/utils/rideShares.ts:43-51 | A user who takes part in no counted ride is attributed 0 km. |
| RideShares.FoldSharesConserve | apps/web/src/utils/rideShares.ts:48-50 | The ride loop adds the total counted distance to the sum of the map. |
| RideShares.KmByUserConserves | apps/web/src/utils/rideShares.ts:39-52 | The entries of `computeKmByUser` sum to the summed distance of all counted rides. |
| RideShares.KmTotals.constructor | apps/web/src/utils/rideShares.ts:43-46 | The totals record starts at 0 for every known id. |
| RideShares.KmTotals.AddRideKmShares | apps/web/src/utils/rideShares.ts:18-33 | The in-place loop leaves the record equal to the one-ride share function applied to the old record. |
| RideShares.ComputeKmByUser | apps/web/src/utils/rideShares.ts:39-52 | The method's result is the folded share map of all rides over the initial totals. |
| Settlement.TotalKmByUser | apps/web/src/pages/SettlePage.tsx:27-36 | The `continue` loop computes the owner-km map, crediting each counted ride's whole distance to `r.userId`. |
| Settlement.OwnerKm | apps/web/src/pages/SettlePage.tsx:27-36 | Only positive distances are credited, so every entry of the page's km map is positive. |
| Settlement.OwnerKmAt | apps/web/src/pages/SettlePage.tsx:27-36 | Each entry is the summed distance of that user's counted rides. Only users with a counted ride have an entry. |
| Settlement.TotalKmOverallIsTotalDistance | apps/web/src/pages/SettlePage.tsx:38-41 | The sum of all entries equals the total counted distance, including rides of users outside the roster. |
| Settlement.TotalVariableCosts | apps/web/src/pages/SettlePage.tsx:43-46 | With non-negative amounts the cost pool is non-negative. |
| Settlement.PaidBy | apps/web/src/pages/SettlePage.tsx:52-54 | A user who paid no cost has paid 0. With non-negative amounts, what one user paid is between 0 and the whole pool. |
| Settlement.WearPaidBy | apps/web/src/pages/SettlePage.tsx:65-67 | A user who made no wear payment has paid 0. With non-negative amounts, the total is non-negative. |
| Settlement.FairShare | apps/web/src/pages/SettlePage.tsx:56-59 | Without distance the share is 0. Otherwise, for km between 0 and the total, the share lies between 0 and the whole pool. |
| Settlement.WearOwed | apps/web/src/pages/SettlePage.tsx:63 | No km means no wear owed. Non-negative km at a non-negative rate owes a non-negative amount. |
| Settlement.Summarize | apps/web/src/pages/SettlePage.tsx:49-81 | A row carries the user's id and name, and `km` is the map entry. Each net plus what is owed equals what was paid. A user with no map entry falls back to 0 km and has no share and no wear owed. |
| Settlement.Summaries | apps/web/src/pages/SettlePage.tsx:48-50 | There is one summary per roster entry, in roster order. |
| Settlement.SettleSummaries | apps/web/src/pages/SettlePage.tsx:48-83 | The page has one row per roster entry, with that entry's id and name, in roster order. |
| Settlement.SummaryFields | apps/web/src/pages/SettlePage.tsx:48-83 | `km` is the user's owned km, or 0. `variablePaid` sums only that user's costs. The share is proportional to km, or 0 without distance. Both nets are paid minus owed, and wear is `km × rate`. |
| Settlement.NoDistanceNoShare | apps/web/src/pages/SettlePage.tsx:56-61 | With no counted ride every fair share is 0, so each net equals what the user paid. |
| Settlement.PaidMapSum | apps/web/src/pages/SettlePage.tsx:43-54 | The per-payer amounts add up to `totalVariableCosts`. |
| Settlement.FairShareWhole | apps/web/src/pages/SettlePage.tsx:56-59 | The whole distance carries the whole pool. |
| Settlement.FairShareAdditive | apps/web/src/pages/SettlePage.tsx:56-59 | Shares are additive in km. |
| Settlement.SummariesNet | apps/web/src/pages/SettlePage.tsx:48-83 | The summed nets are what the roster paid minus the share of the roster's km. |
| Settlement.VariableNetsSumToZero | apps/web/src/pages/SettlePage.tsx:48-83 | With distance driven and every counted ride and cost belonging to a roster of distinct ids, the variable nets sum to exactly 0. |
| Settlement.TwoUserExample | apps/web/src/pages/SettlePage.tsx:48-83 | A drives 0→100 and B drives 100→150, and A pays 60. A's share is 40 (net +20) and B's is 20 (net −20). Wear is 0.2/km. |
| Settlement.WearIsPerUser | apps/web/src/pages/SettlePage.tsx:63-69 | A wear payment changes only its payer's wear net, by its amount. Nothing is redistributed. |
| Settlement.SharesAgreeWithOwnerKm | apps/web/src/pages/SettlePage.tsx:27-36 | When every ride's participants are just its initiator, `computeKmByUser` and the page's map agree on every user. |
| Settlement.SoloSharesAreOwnedKm | apps/web/src/utils/rideShares.ts:27-32 | Under the same condition, each user's summed shares equal their owned km. |
| Stats.FindUser | apps/web/src/pages/StatsPage.tsx:22 | Returns the first roster entry with the id, and none exactly when no entry has it. |
| Stats.StatsFor | apps/web/src/pages/StatsPage.tsx:24-76 | Given the same km map and totals, each of the seven figures equals the field of the overview's summary for a user with that id. |
| Stats.StatsPage | apps/web/src/pages/StatsPage.tsx:78-86 | The page shows a user exactly when the id is a roster id. Otherwise it is "User not found". |
| Stats.StatsAgreeWithSettle | apps/web/src/pages/StatsPage.tsx:24-76 | For a roster user, all seven figures equal the fields of that user's settle-up summary. |
| Stats.WearPaymentDecision | apps/web/src/pages/StatsPage.tsx:88-110 | A missing user gives "User missing or not found.". For a found user, an empty, NaN or non-positive amount gives "Enter a valid amount.". Otherwise the result is exactly one payment with this user, the typed amount, the id and the time. |
| Stats.WearPaymentForm.constructor | apps/web/src/pages/StatsPage.tsx:14-15 | The amount field starts empty with no error. |
| Stats.WearPaymentForm.SetWearAmount | apps/web/src/pages/StatsPage.tsx:196-197 | Typing sets the amount field. |
| Stats.WearPaymentForm.DismissError | apps/web/src/pages/StatsPage.tsx:137 | Closing the notification clears the error. |
| Stats.WearPaymentForm.HandleAddWearPayment | apps/web/src/pages/StatsPage.tsx:88-110 | An error shows it and submits nothing. Success submits exactly the decided payment and clears the input. |
| FormInput.PositiveAmount | apps/web/src/pages/CostPage.tsx:31-35 | A value exactly when the text is non-empty and parses to a number > 0. |
| CostForm.NoteOf | apps/web/src/pages/CostPage.tsx:43 | An empty description is stored as no description. |
| CostForm.CostDecision | apps/web/src/pages/CostPage.tsx:24-45 | No user gives "Select a user." and an invalid amount gives "Enter a valid amount.". Otherwise there is exactly one cost with the selected user, amount, type, id and time. |
| CostForm.RecordedCostEffect | apps/web/src/pages/SettlePage.tsx:43-54 | A recorded cost raises the pool and its payer's `variablePaid` by its amount, and leaves others' paid totals unchanged. |
| CostForm.CostFormState.constructor | apps/web/src/pages/CostPage.tsx:13-17 | The payer starts as the first roster user, the type as FUEL, and the text fields empty. |
| CostForm.CostFormState.SetUserId | apps/web/src/pages/CostPage.tsx:73 | Picking a user selects that user. |
| CostForm.CostFormState.SetAmount | apps/web/src/pages/CostPage.tsx:83 | Typing sets the amount field. |
| CostForm.CostFormState.SetCostType | apps/web/src/pages/CostPage.tsx:92 | Choosing a type sets the cost type. |
| CostForm.CostFormState.SetDescription | apps/web/src/pages/CostPage.tsx:105 | Typing sets the description field. |
| CostForm.CostFormState.DismissError | apps/web/src/pages/CostPage.tsx:64 | Closing the notification clears the error. |
| CostForm.CostFormState.HandleSubmit | apps/web/src/pages/CostPage.tsx:24-45 | An error submits nothing. Success submits exactly the decided cost. |
| RideLifecycle.ModeOf | apps/web/src/pages/RidePage.tsx:18 | Start mode exactly for a missing, empty or `"start"` parameter. |
| RideLifecycle.InitialUser | apps/web/src/pages/RidePage.tsx:19-23 | The `userId` parameter if non-empty, else the first roster user. A user is always selected. |
| RideLifecycle.LatestIndex | apps/web/src/pages/RidePage.tsx:36-42 | The stable descending sort's first ride: a greatest `startedAt`, and the first ride that has it. |
| RideLifecycle.LatestIsUnique | apps/web/src/pages/RidePage.tsx:36-42 | That characterisation picks exactly one ride. |
| RideLifecycle.LastRide | apps/web/src/pages/RidePage.tsx:36-42 | None exactly when there are no rides. Otherwise it is the latest ride. |
| RideLifecycle.LastKnownKm | apps/web/src/pages/RidePage.tsx:44-45 | The latest ride's `endKm` if closed, its `startKm` if open, and 0 without rides. |
| RideLifecycle.OpenRidesOf | apps/web/src/pages/RidePage.tsx:56-58 | Holds exactly the rides of the user whose `endKm` is null. |
| RideLifecycle.OpenRideForUser | apps/web/src/pages/RidePage.tsx:54-62 | Some exactly when a user is selected and has an open ride. It is then one of their open rides with the greatest `startedAt`, and no open ride of theirs earlier in the list has that start, as the stable sort's `[0]` gives. |
| RideLifecycle.OpenRideTieBreak | apps/web/src/pages/RidePage.tsx:56-61 | The first ride of the descending stable sort of the filtered list has a position in the full list before which every open ride of the user started strictly earlier. |
| RideLifecycle.OpenPositionsPick | apps/web/src/pages/RidePage.tsx:56-58 | The filtered list is exactly the rides at the listed positions. |
| RideLifecycle.OpenPositionsIncrease | apps/web/src/pages/RidePage.tsx:56-58 | The positions increase, so the filter keeps list order. |
| RideLifecycle.OpenPositionsCover | apps/web/src/pages/RidePage.tsx:56-58 | Every open ride of the user has its position listed. |
| RideLifecycle.StartPlan | apps/web/src/pages/RidePage.tsx:81-105 | An open last ride with km ≤ its start is an error. Otherwise that ride is first closed at km (distance `km - startKm`), then one new open ride starting at km is added. A closed last ride gives only the add. |
| RideLifecycle.StopPlan | apps/web/src/pages/RidePage.tsx:115-138 | No open ride, or km ≤ its start, is an error. Otherwise only that ride's `endKm`/`endedAt` are updated, and the reported distance `km - startKm` is > 0. |
| RideLifecycle.RideDecision | apps/web/src/pages/RidePage.tsx:67-79 | No user, or an empty, NaN or ≤ 0 km, is an error with no store call. Otherwise the mode's plan applies, which makes at least one call. |
| RideLifecycle.RideForm.constructor | apps/web/src/pages/RidePage.tsx:21-25 | The form starts with the initial user, an empty km field and no error. |
| RideLifecycle.RideForm.SetUserId | apps/web/src/pages/RidePage.tsx:163 | Picking a user selects that user. |
| RideLifecycle.RideForm.SetKm | apps/web/src/pages/RidePage.tsx:196 | Typing, or a scanner result given as text, sets the km field. |
| RideLifecycle.RideForm.DismissError | apps/web/src/pages/RidePage.tsx:154 | Closing the notification clears the error. |
| RideLifecycle.RideForm.Prefill | apps/web/src/pages/RidePage.tsx:47-52 | In start mode an empty km field gets the last known km. Otherwise the field is kept. |
| RideLifecycle.RideForm.HandleSubmit | apps/web/src/pages/RidePage.tsx:67-132 | The early returns show the decided error and issue nothing. Success issues exactly the plan's calls, in order. |
| RideLifecycle.ReplaceRide | apps/worker/worker.ts:166-177 | `UPDATE … WHERE id = ?` adds, removes and moves no row. Rows with another id are unchanged. Each row with the id takes the body's user, readings and times, and keeps its own id, participants and end position. |
| RideLifecycle.ReplaceRideAt | apps/worker/worker.ts:166-177 | With unique ids, an update changes just that one row. A body that keeps the row's participants and end position becomes the row. |
| RideLifecycle.AtMostOneOpen | apps/web/src/pages/RidePage.tsx:83-96 | Under the kept invariant, two open rides are the same ride. |
| RideLifecycle.TotalDistanceReplace | apps/web/src/pages/SettlePage.tsx:29-34 | Replacing one ride changes the total distance by the difference of the two rides' counted distances. |
| RideLifecycle.StartKeepsOnlyLatestOpen | apps/web/src/pages/RidePage.tsx:81-105 | Needs a fresh id and a clock ahead of every start. Then a start adds one ride, keeps ids unique and keeps "only the latest ride is open". The new ride is the latest, prefills the next start, and is the ride the user's next stop finds. |
| RideLifecycle.StopRewritesOpenRide | apps/web/src/pages/RidePage.tsx:115-132 | A successful stop rewrites exactly one row, the user's open ride, which it closes at `km` and `now`. |
| RideLifecycle.StopClosesOpenRide | apps/web/src/pages/RidePage.tsx:115-138 | After a successful stop no ride is open, so the user has none. "Only the latest ride is open" and unique ids are kept. |
| RideLifecycle.StopAddsReportedDistance | apps/web/src/pages/RidePage.tsx:115-138 | A stop keeps the number of rides. The total counted distance grows by exactly the distance the stop reports. |
| Listeners.IndexOf | apps/web/src/dataStore.ts:106 | The first position of the listener, or −1 exactly when it is not registered. |
| Listeners.Unsubscribed | apps/web/src/dataStore.ts:105-108 | An unregistered listener leaves the list unchanged. Otherwise the list loses exactly one entry. |
| Listeners.UnsubscribeRemovesFirst | apps/web/src/dataStore.ts:105-108 | Removes exactly one registration, the first, and keeps the others in order. An unregistered listener changes nothing. |
| Listeners.SubscribeThenUnsubscribe | apps/web/src/dataStore.ts:95-108 | Subscribing a new listener and then unsubscribing it restores the registry. |
| Listeners.UnsubscribeTwice | apps/web/src/dataStore.ts:105-108 | A second call of the same unsubscribe does nothing exactly when the listener was registered at most once. |
| Listeners.Deliveries | apps/web/src/dataStore.ts:28-30 | Each registered listener is called once, in order, with the same snapshot. |
| WebStore.ParseParticipantIds | apps/web/src/dataStore.ts:32-48 | An array is kept as is and text that parses to an array gives that array. Anything else, unparsable text included, gives `[]`. |
| WebStore.NormalizeRide | apps/web/src/dataStore.ts:50-64 | Only the participants are rewritten, by `parseParticipantIds`. Every other field is kept, so the ride is open exactly when `endKm` is null. |
| WebStore.NormalizeRideKeepsRide | apps/web/src/dataStore.ts:50-64 | A ride already in client shape is unchanged, and null fields stay null. |
| WebStore.NormalizeRideParsesText | apps/web/src/dataStore.ts:50-64 | Text participants are parsed, unparsable text gives none, and the other fields are kept. |
| WebStore.Normalized | apps/web/src/dataStore.ts:72-75 | Every ride is normalised, a missing list is `[]`, and costs, payments and config are copied. |
| WebStore.DefaultState | apps/web/src/dataStore.ts:13-20 | The default snapshot is empty with a wear rate of 0.2. |
| WebStore.DataStore.constructor | apps/web/src/dataStore.ts:22-26 | The store starts with the default snapshot, not loaded, and no listeners. |
| WebStore.DataStore.Notify | apps/web/src/dataStore.ts:28-30 | Every listener gets the current snapshot, in registration order. |
| WebStore.DataStore.LoadFromBackend | apps/web/src/dataStore.ts:67-82 | A response replaces the whole snapshot, sets loaded and notifies. A failure changes nothing. |
| WebStore.DataStore.GetState | apps/web/src/dataStore.ts:86-93 | Returns the snapshot. A load starts exactly when none has succeeded. |
| WebStore.DataStore.Subscribe | apps/web/src/dataStore.ts:95-103 | Appends the listener and calls it once with the current snapshot. A load starts when not loaded. |
| WebStore.DataStore.Unsubscribe | apps/web/src/dataStore.ts:105-108 | Removes the listener's first registration. |
| WebStore.DataStore.Refresh | apps/web/src/dataStore.ts:111-113 | A refresh is one load. |
| WebStore.DataStore.AddRide | apps/web/src/dataStore.ts:115-118 | Sends the request. The snapshot changes only by the reload after a successful call. |
| WebStore.DataStore.UpdateRide | apps/web/src/dataStore.ts:120-123 | Same as `AddRide`, for an update. |
| WebStore.DataStore.AddCost | apps/web/src/dataStore.ts:125-128 | Same as `AddRide`, for a cost. |
| WebStore.DataStore.AddWearPayment | apps/web/src/dataStore.ts:130-133 | Same as `AddRide`, for a payment. |
| WebStore.DataStore.UpdateConfig | apps/web/src/dataStore.ts:136-143 | Merges the patch into the config only, keeps rides, costs and payments, and notifies. |
| LegacyDomain.LegacyRosterWellFormed | src/types.ts:48-52 | The legacy roster has three users with distinct ids. |
| LegacyDomain.LegacyRideCountsForDriver | src/types.ts:9-16 | A legacy ride without `endKm` is open. Read with no participants, its whole counted distance goes to its driver. |
| LegacyStore.DefaultLegacyState | src/dataStore.ts:5-12 | The default snapshot is empty with a wear rate of 0.2. |
| LegacyStore.ReplaceById | src/dataStore.ts:59-63 | Each ride with the id is replaced and the others are kept, with length and order preserved. |
| LegacyStore.ReplaceByIdProperties | src/dataStore.ts:59-63 | An unknown id changes nothing. Replacing a ride with itself changes nothing. A second update by id overrides the first. |
| LegacyStore.AddThenUpdate | src/dataStore.ts:53-66 | A new ride added and then updated ends up as the updated ride, at the end of the list. |
| LegacyStore.Store.constructor | src/dataStore.ts:14-24 | The store starts with the saved snapshot if one parses, else the default. |
| LegacyStore.Store.Notify | src/dataStore.ts:34-36 | Every listener gets the current snapshot, in order. |
| LegacyStore.Store.GetState | src/dataStore.ts:39-41 | Returns the current snapshot. |
| LegacyStore.Store.Subscribe | src/dataStore.ts:43-46 | Appends the listener and calls it once immediately. |
| LegacyStore.Store.Unsubscribe | src/dataStore.ts:47-50 | Removes the listener's first registration, if any. |
| LegacyStore.Store.AddRide | src/dataStore.ts:53-57 | Appends the ride with everything else unchanged, then notifies everyone once with the new snapshot. |
| LegacyStore.Store.UpdateRide | src/dataStore.ts:59-66 | Replaces by id with everything else unchanged, then notifies. |
| LegacyStore.Store.AddCost | src/dataStore.ts:68-72 | Appends the cost with everything else unchanged, then notifies. |
| LegacyStore.Store.AddWearPayment | src/dataStore.ts:74-81 | Appends the payment with everything else unchanged, then notifies. |
| LegacyStore.Store.UpdateConfig | src/dataStore.ts:83-90 | Overrides only the given config fields, then notifies. |
| Worker.DigitsOnly | apps/worker/worker.ts:289 | The result consists of digits only and is no longer than the text. |
| Worker.DigitsOnlyAppend | apps/worker/worker.ts:289 | The filter distributes over concatenation, so digits keep their original order. |
| Worker.DigitsOnlyOfDigits | apps/worker/worker.ts:289 | A string of digits is kept whole. |
| Worker.DigitsOnlyEmpty | apps/worker/worker.ts:289 | Nothing is left exactly when the text has no digit. |
| Worker.Candidate | apps/worker/worker.ts:291-298 | No candidate exactly without digits. It has 1 to 7 digits and is a suffix: the whole string up to 7 digits, the last 7 beyond. |
| Worker.DecimalValue | apps/worker/worker.ts:300-303 | A string of n digits is worth less than 10^n, so the value is finite. |
| Worker.LeadingZero | apps/worker/worker.ts:300-303 | A leading zero does not change the value. |
| Worker.ReadOdometer | apps/worker/worker.ts:282-312 | Empty text gives null, `""`, `""` and a message. Otherwise the raw text and digits are echoed, and the value is present exactly when there is a digit. It is then the candidate's decimal value, at most 9999999. |
| Worker.OcrDropsLeadingZero | apps/worker/worker.ts:289-303 | `"odo 012345 km"` reads as 12345. |
| Worker.OcrKeepsLastSeven | apps/worker/worker.ts:291-303 | `"1234567890"` reads as 4567890. |
| Worker.OcrNoDigits | apps/worker/worker.ts:291-303 | Text without digits has no value. |
| Worker.WearRateFromConfig | apps/worker/worker.ts:122 | Without a config row the rate is 0.2. Otherwise it is the row's number. |
| Worker.RequestOrigin | apps/worker/worker.ts:50 | A missing or empty Origin header gives `"*"`. |
| Worker.AllowOrigin | apps/worker/worker.ts:318 | `"null"` maps to `"*"` and any other origin is echoed. The result is never `"null"`. |
| Worker.CorsHeaders | apps/worker/worker.ts:316-323 | Four headers, the first being the allow-origin value. |
| Worker.AllowOriginOfRequest | apps/worker/worker.ts:50 | Any origin is allowed exactly when the header is missing, empty, `"null"` or `"*"`. Otherwise the requesting origin is echoed. |

## Left out

- Floating point: all amounts are exact reals. Rounding, `Infinity` and `Number.isFinite` on distances are not modelled. The zero-sum property is exact only in the model.
- `toFixed(2)` formatting, JSX, navigation, notifications and the other presentation files are not modelled.
- Parsing of dates: ISO strings are integer timestamps. An unparsable date (NaN in the sort) is not modelled.
- `new Date()` and `crypto.randomUUID()` are parameters. The two clock reads in one start submit become one `now`.
- `String(lastKnownKm)` is a parameter of `RideLifecycle.RideForm.Prefill`.
- The apps/web/src/components/OdometerScanner.tsx file (camera, canvas, image upload) is not part of this model.
- The request bodies of apps/web/src/api.ts are not modelled. `createRide` drops participants, and the worker stores only id, user, readings and times. The store methods record the ride or record they were given.
- Worker I/O is not modelled: SQL, the OCR HTTP call and its 502 path, route dispatch, the header-copy loop and JSON responses.
- Concurrency: the fire-and-forget loads of `getState`/`subscribe` can interleave. Each load is one atomic step whose outcome is a parameter.
- A failed API call in the web store rejects the caller's promise. Only "no reload happens" is modelled.
- Listeners are opaque callbacks, assumed not to re-enter the store while `notify` runs.
- `localStorage` persistence in src/dataStore.ts is not modelled. `load()` becomes an optional saved snapshot given to the constructor.
- An `undefined` value spelled out in a `Partial<AppConfig>` patch (which would overwrite the rate) is not modelled. A patch field is either given or absent.
- Ride `endLat`/`endLng`: `undefined` and `null` are both `None`.
- JSON.parse returning an array of non-strings is not modelled. The oracle returns user ids.
- `Number(r.startKm)`, `Number(r.endKm)` and `String(r.startedAt)` in `normalizeRide` are not modelled. `RawRide` already has typed fields, so a non-numeric value from the backend is not represented.
- Per-user totals are plain JavaScript objects in the source (`map[r.userId] = (map[r.userId] || 0) + d`, `totals[pid] = (totals[pid] ?? 0) + share`). They are modelled as maps without inherited keys. User ids are assumed not to be names of `Object.prototype` properties.
  - For example, an id `"constructor"` would make the entry a string. An id `"__proto__"` would lose the ride's km.
  - `Settlement.OwnerKmAt`, `RideShares.KmByUserAt` and the lemmas built on them hold only for such ids.
- Settlement.VariableNetsSumToZero: it also requires the roster ids to be distinct, which the real roster satisfies (`Domain.RosterWellFormed`).
