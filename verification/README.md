# FarmProof state core in Dafny

FarmProof is a demonstration of parametric flood insurance for smallholder
farmers. Farmers register a plot and a cover tier and pay a premium into a
pool. A weather oracle reads rainfall, a vegetation index (NDVI) and the
river level. When all three exceed the thresholds the admin has set, every
unpaid farmer is paid their coverage. Every step is written into a simulated
blockchain ledger: newest entry first, with a block number and a random
transaction hash.

This project models the shared state those screens work on and the
operations that change it:

- `Domain`: the values of the system.
  - Farmers, ledger entries, thresholds and weather.
  - The whole-store `Snapshot`, the defaults, and partial states (a persisted or broadcast state).
  - Laying a partial over a state.
  - Rehydrating timestamps (the current store turns a missing or `null` one into "now"; the older layer turns a missing one into an invalid date and `null` into the epoch).
- `Chain`: the blockchain helpers.
  - Random hex strings, with the random digits taken as parameters.
  - Address and hash shortening.
  - The block counter, and building and adding a ledger entry.
  - Looking up and verifying a transaction hash.
- `Oracle`: the simulated oracle reading and the trigger evaluation, in the current library and in the two older copies.
- `Store`: the persisted store (the current prototype).
  - A class whose methods are the store's mutations.
  - Each method is specified by a transition function on `Snapshot`.
  - Lemmas on those functions: the pool equals the premiums, payouts keep the pool non-negative, and a patch or rehydration is harmless when repeated.
- `Shared`: the older prototype's shared layer.
  - The `StateEvents` publish/subscribe registry, with handler order, wildcard handlers and exceptions swallowed per handler.
  - The in-memory state with its hydrate, merge, block counter and entry logging.
- `OldApp`: the older single-page app.
  - Form validation and registration.
  - The payout loop of `PayoutEngine.simulate`, as a `while` loop proved against a recursive specification.
  - The trigger reset, the threshold save, and the audit trail's filter.
- The four portals of the current app:
  - `FarmerPortal`: tiers, registration, the weather cards and the payouts list.
  - `OraclePortal`: the flood run's steps and payout loop, and the reset.
  - `InsurerPortal`: the pool figures, the ledger filter and search, the crop chart, and hash verification.
  - `AdminPortal`: the threshold sliders, save and reset.

Where the written description of the system and its code differ, the model
follows the code:

- `markFarmerPaid` with an id that matches no farmer still moves the pool and both payout counters (`Store.MarkedPaidWithoutMatch`). It is not a no-op.
- `markFarmerPaid` has no guard against paying twice. A second call counts the payout again (`Store.MarkedPaidTwice`).
- The store's `registerFarmer` does no validation. Validation lives in the form handlers (`FarmerPortal.HandleRegister`, `OldApp.AppState.HandleSubmit`).
- The ledger is kept newest first: each entry is put in front of the list.
- A `block` passed in an entry's extra fields replaces the counter's value in the entry (`Chain.MakeEntry`). So the entry's block is not always the counter's new value.
- The current store's rehydration turns a missing or `null` timestamp into the current time. The older layer's turns a missing one into an invalid date and a `null` one into the epoch. An invalid date is written to JSON as `null`, so it does not survive a round trip through either layer (`Domain.SerializeRoundTrip`). Both rehydrations are idempotent (`Domain.HydrateIdempotent`, `Shared.LegacyHydrateIdempotent`).

## Model

Source paths are relative to the repository root.

| member | source | states |
|---|---|---|
| Domain.OverlayNoKeys | prototype/src/store/useStore.js:97-99 | Spreading a partial with no keys leaves the state as it was. |
| Domain.OverlayAllKeys | prototype/src/store/useStore.js:97-99 | Spreading a partial that carries every key yields that partial's state, whatever it was laid over. |
| Domain.OverlayIdempotentAndComposes | prototype/src/store/useStore.js:97-99 | Spreading the same partial twice equals spreading it once; two spreads in a row equal one spread of the combined partial, where the later one wins. |
| Domain.HydrateStamp | prototype/src/store/useStore.js:24-34 | Rehydrating a timestamp always yields a date. A date is kept as it is, a serialized time becomes that instant, and a missing or `null` one becomes the current time. |
| Domain.HydrateEntriesAt | prototype/src/store/useStore.js:25-28 | Rehydrating the ledger keeps its length and order and changes no entry field other than its timestamp. |
| Domain.HydrateFarmersAt | prototype/src/store/useStore.js:29-32 | Rehydrating the farmers keeps length and order and changes only `registeredAt`. |
| Domain.HydrateShape | prototype/src/store/useStore.js:24-34 | After rehydration every timestamp is a date, both lists keep their lengths, and every other field of the state is unchanged. |
| Domain.HydrateFixesHydrated | prototype/src/store/useStore.js:24-34 | A state whose timestamps are all dates is left exactly as it is. |
| Domain.HydrateIdempotent | prototype/src/store/useStore.js:24-34 | Rehydrating twice equals rehydrating once, even at a later clock reading. |
| Domain.LegacyHydrateStamp | prototype.old/shared.js:45-48 | The older rehydration yields a date, keeps a date, and parses a serialized time to that instant. A missing timestamp becomes an invalid date, and `null` becomes the epoch. |
| Domain.SerializeRoundTrip | prototype/src/store/useStore.js:24-34 | A valid date written to JSON comes back unchanged through either rehydration (this one and prototype.old/shared.js:45-48). An invalid date comes back as the current time here, and as the epoch in the older layer. |
| Chain.RandomHex | prototype/src/lib/blockchain.js:6-10 | The result is "0x" followed by one character per draw. |
| Chain.RandomHexIsHex | prototype/src/lib/blockchain.js:3-10 | Every character after the prefix is a lower-case hex digit. |
| Chain.RandomHexDecodes | prototype/src/lib/blockchain.js:6-10 | Each character decodes back to the draw it came from. |
| Chain.RandomHexInjective | prototype/src/lib/blockchain.js:6-10 | Different draws give different strings. |
| Chain.ShortAddress | prototype/src/lib/blockchain.js:12-14 | Any address becomes its first 6 characters (all of a shorter one), an ellipsis, and its last 4 (all of a shorter one), so a short address shows its characters twice. At 10 or more characters this is 11 characters. |
| Chain.ShortHash | prototype/src/lib/blockchain.js:16-18 | The result is a dash exactly for an empty hash. Any other hash becomes its first 10 characters (all of a shorter one), an ellipsis, and its last 6 (all of a shorter one); at 16 or more characters this is 17 characters. |
| Chain.ShortHashOfRandomHex | prototype/src/lib/blockchain.js:16-18 | A generated 64-digit hash shortens to 17 characters starting with "0x". |
| Chain.MakeEntry | prototype/src/lib/blockchain.js:26-38 | The entry carries the given kind, actor, description and clock reading; a block or hash in the extra fields overrides the generated one. |
| Chain.WithEntryShape | prototype/src/lib/blockchain.js:26-38 | Adding an entry puts exactly one entry in front of the ledger and advances the counter by 1 to 4. The entry's block is the counter's new value unless the extra fields give one, and a generated hash has 66 characters. Every other field of the state is unchanged. |
| Chain.NextBlock | prototype/src/lib/blockchain.js:21-23 | The counter grows by the drawn step and nothing else changes. |
| Chain.AddEntry | prototype/src/lib/blockchain.js:26-38 | The store moves to the state `WithEntry` describes, and the entry returned is the one now at the front of the ledger. |
| Chain.FindByHash | src/pages/insurer/InsurerPortal.jsx:203 | The lookup fails exactly when no entry has the hash. Otherwise it returns the first entry, newest first, with that hash. |
| Chain.VerifyHash | prototype.old/app.js:596-604 | The result is success exactly when some entry has the hash, and then the entry shown is the first one, newest first, with that hash. It is "not found" exactly for a non-empty hash that no entry has, and blank for an empty one that no entry has. |
| Chain.StoredHashVerifies | prototype.old/app.js:596-604 | The hash of any entry in the ledger verifies. |
| Store.DefaultsAccounted | prototype/src/store/useStore.js:7-18 | In the defaults the pool equals the sum of the farmers' premiums. |
| Store.RegisteredKeepsAccounts | prototype/src/store/useStore.js:48-55 | Registering keeps the pool equal to the sum of the premiums. |
| Store.RegisteredKeepsPoolNonNegative | prototype/src/store/useStore.js:48-55 | Registering a farmer with a non-negative premium never lowers a non-negative pool, and the farmer is appended last. |
| Store.RegistrationsFromDefaults | prototype/src/store/useStore.js:48-55 | Registering a list of farmers into the defaults gives exactly that list, a pool of their premiums and a total coverage of their coverages, with the ledger left empty. |
| Store.PrependedShape | prototype/src/store/useStore.js:57-61 | Adding a ledger entry puts it in front of the old ledger and changes nothing else. |
| Store.MarkPaidAt | prototype/src/store/useStore.js:69-72 | Each farmer with the id becomes paid with the transaction and block; every other farmer is kept, and the length is unchanged. |
| Store.MarkedPaidPool | prototype/src/store/useStore.js:73 | The pool drops by the amount, floored at zero, so it is never negative. |
| Store.MarkedPaidWithoutMatch | prototype/src/store/useStore.js:69-78 | With an unknown id the farmers are unchanged, yet the payout count and total still grow. |
| Store.MarkedPaidTwice | prototype/src/store/useStore.js:69-78 | Paying the same farmer twice leaves the farmers as after once but counts the payout, and takes the amount from the pool, twice. |
| Store.PatchedShape | prototype/src/store/useStore.js:97-99 | A patch takes every present key from the partial and keeps the rest. The lists keep their entries apart from rehydrated timestamps, and the result is hydrated. |
| Store.PatchedEchoIsHarmless | prototype/src/store/useStore.js:97-99 | A hydrated state that receives a patch of its own values (its own broadcast echo) is unchanged. |
| Store.Store.constructor | prototype/src/store/useStore.js:36-39 | A new store holds the defaults. |
| Store.Store.Load | prototype/src/store/useStore.js:98 | `set` replaces every field with the given state. |
| Store.Store.SetWeatherData | prototype/src/store/useStore.js:43-46 | Only the weather data changes. |
| Store.Store.RegisterFarmer | prototype/src/store/useStore.js:48-55 | The state becomes `Registered`, and the pool stays equal to the premiums. |
| Store.Store.AddLedgerEntry | prototype/src/store/useStore.js:57-61 | The entry is put in front of the ledger, and nothing else changes. |
| Store.Store.AdvanceBlock | prototype/src/store/useStore.js:63-67 | The counter grows by the drawn step in 1 to 4, and the method returns the new value. |
| Store.Store.MarkFarmerPaid | prototype/src/store/useStore.js:69-78 | The state becomes `MarkedPaid`; the pool is never negative and the farmer list keeps its length. |
| Store.Store.SetFloodSimulated | prototype/src/store/useStore.js:80-83 | Only the flag changes. |
| Store.Store.SetThresholds | prototype/src/store/useStore.js:85-88 | Only the thresholds change. |
| Store.Store.ResetState | prototype/src/store/useStore.js:90-94 | Every field goes back to the defaults, where the pool equals the premiums. |
| Store.Store.Patch | prototype/src/store/useStore.js:97-99 | The state becomes the partial laid over it, then rehydrated. |
| Store.Store.Rehydrate | prototype/src/store/useStore.js:101-106 | On start-up a saved state, if any, is laid over the defaults and rehydrated; without one the defaults stay. |
| Oracle.RoundTenth | src/lib/oracle.js:6 | The result is a whole number of tenths within 0.05 of the value. |
| Oracle.RoundHundredth | src/lib/oracle.js:7 | The result is a whole number of hundredths within 0.005 of the value. |
| Oracle.Simulate | src/lib/oracle.js:2-12 | A flood reading is 237.5 / 62.4 / 9.8. Otherwise rainfall is the live or default weather's and NDVI and river lie in their random ranges. Temperature, humidity and wind come from the weather. |
| Oracle.Check | src/lib/oracle.js:17 | An index is met exactly when the reading is strictly above the threshold. The percentage is the exact ratio up to 1.3 times the threshold and exactly 130 above it, and at least 100 exactly when the reading reaches the threshold. |
| Oracle.PercentOfThreshold | src/lib/oracle.js:17 | The percentage of a positive threshold reaches 100 exactly at the threshold and 130 exactly at 1.3 times it, and is non-negative for a non-negative reading. |
| Oracle.Evaluate | src/lib/oracle.js:15-24 | Each index is checked against its own threshold, and the trigger fires exactly when all three readings are above their thresholds. |
| Oracle.EqualReadingIsNotMet | src/lib/oracle.js:17-23 | A reading equal to its threshold keeps the trigger off. |
| Oracle.FloodTriggersAtDefaults | src/lib/oracle.js:2-24 | A simulated flood meets all three default thresholds. |
| Oracle.DefaultWeatherDoesNotTrigger | src/lib/oracle.js:2-24 | Without live weather the normal reading has 47.2 mm of rain and does not trigger at the defaults. |
| Oracle.CalmNeverTriggers | src/lib/oracle.js:2-24 | A normal reading never triggers once the NDVI threshold is at least 16.05, whatever the weather. |
| Oracle.LegacyEvaluate | prototype.old/shared.js:190-199 | The older copy of the evaluator agrees with the current one on every input. |
| Oracle.LegacySimulate | prototype.old/shared.js:181-189 | The older shared layer's reading is the flood reading in a flood; otherwise its NDVI lies in [8, 16) and its river level in [5.5, 7), unrounded. |
| Oracle.LegacySimulateRounded | prototype.old/shared.js:181-189 | With the same weather and draws, the current library's reading is the older one with the NDVI rounded to tenths and the river level to hundredths, so within 0.05 and 0.005 of it. The two agree everywhere else, and exactly in a flood. |
| Oracle.AppOracleData | prototype.old/app.js:130-156 | The older app's reading equals the current library's reading for the app's flood flag, except that it falls back to its own weather (no rain, 28 degrees, 70% humidity, 12 km/h). |
| Oracle.AppFallbackNeverTriggers | prototype.old/app.js:145-156 | Without fetched weather and outside a flood, the older app reads 0 mm of rain and never triggers, whatever the thresholds. |
| Oracle.PayoutReadingIsFlood | prototype.old/app.js:174-175 | The payout engine sets the flood flag before reading, so the reading it evaluates and logs is always the flood reading, which meets the default thresholds. |
| Oracle.TriggerEvaluate | prototype.old/app.js:159-169 | The app's evaluator reports each reading and whether it is met as the current evaluator does, and the trigger fires exactly when all three are met. |
| Shared.CallsAt | prototype.old/shared.js:29-32 | An emit calls every handler in the list once, in subscription order. |
| Shared.EmitOrder | prototype.old/shared.js:29-32 | The type's own handlers run first, with the payload; the wildcard handlers run after them, with the type and the payload. |
| Shared.WildcardEmitRunsTwice | prototype.old/shared.js:29-32 | Emitting the wildcard type itself calls every wildcard handler twice: once as a typed handler and once as a wildcard handler. |
| Shared.StateEvents.constructor | prototype.old/shared.js:23-24 | A new registry has no handlers. |
| Shared.StateEvents.On | prototype.old/shared.js:25-28 | Subscribing appends the handler to its type's list and leaves every other type's list alone. |
| Shared.StateEvents.Emit | prototype.old/shared.js:29-32 | The calls made are the typed handlers' calls followed by the wildcard handlers'. A typed handler that throws is reported and the rest still run; a wildcard handler's exception is dropped silently. |
| Shared.LegacyHydrateEntriesAt | prototype.old/shared.js:46 | The older rehydration keeps the ledger's length and order and changes only the timestamps. |
| Shared.LegacyHydrateFarmersAt | prototype.old/shared.js:47 | The same for the farmers and `registeredAt`. |
| Shared.LegacyHydrateIdempotent | prototype.old/shared.js:45-48 | The older rehydration keeps both lengths, leaves every timestamp a date, and is idempotent. |
| Shared.MergedKeys | prototype.old/shared.js:51-54 | A merge takes every present key from the incoming state and keeps the rest; a hydrated list that is not sent is kept unchanged. |
| Shared.SyncedState.constructor | prototype.old/shared.js:36-38 | The shared state starts as a copy of the defaults. |
| Shared.SyncedState.Hydrate | prototype.old/shared.js:45-48 | The loop over both lists leaves the state that `LegacyHydrate` describes. |
| Shared.SyncedState.Merge | prototype.old/shared.js:51-54 | The state becomes the incoming state merged in and rehydrated. |
| Shared.SyncedState.NextBlock | prototype.old/shared.js:126-129 | The counter grows by the drawn step, and nothing else changes. |
| Shared.SyncedState.AddEntry | prototype.old/shared.js:130-143 | The state moves to the one `WithEntry` describes, and the entry returned is the one logged. |
| OldApp.PayoutAmount | prototype.old/app.js:216 | The payout is positive: the tier's coverage, or 50000 for an unknown tier. |
| OldApp.Errors | prototype.old/app.js:300-306 | There are no errors exactly when the name, the crop and the planting date are given, the wallet has at least 11 characters and the area is a positive number. Each of the five fields is flagged exactly when its own check fails. |
| OldApp.NewFarmer | prototype.old/app.js:308-318 | The new farmer is unpaid, has its tier's coverage and premium, and keeps the form's name, wallet, tier and area. |
| OldApp.SubmittedShape | prototype.old/app.js:308-330 | A valid submission appends the farmer and adds the premium and the coverage. The pool stays equal to the premiums and the payout counters are untouched. It adds a registration entry with the wallet address, then a premium entry in front of it. |
| OldApp.Settle | prototype.old/app.js:215-228 | A settled farmer is paid; an unpaid one gets the payout block and the generated transaction hash. |
| OldApp.PayOne | prototype.old/app.js:215-228 | One turn of the loop leaves a paid farmer's state alone. For an unpaid farmer it settles the farmer and counts the tier's payout once, from a pool floored at zero, logging one payout entry with that amount. |
| OldApp.SettledFrom | prototype.old/app.js:214-229 | The farmers before the start position are kept and each farmer from it on is settled. |
| OldApp.SettledFromAllPaid | prototype.old/app.js:214-229 | After a run from the start, every farmer is paid. |
| OldApp.PayFromFarmers | prototype.old/app.js:214-229 | The loop's farmers are the settled list. |
| OldApp.PayFromCounters | prototype.old/app.js:214-229 | The loop adds one payout per unpaid farmer and their payouts to the total, keeps a non-negative pool non-negative, and changes nothing when everyone was paid. |
| OldApp.PayFromLedger | prototype.old/app.js:224-227 | The loop puts one payout entry per unpaid farmer in front of the ledger. |
| OldApp.BeforePayout | prototype.old/app.js:174-200 | Before the loop, the flood flag is set and one oracle entry is logged; the counter moves by the entry's step plus the payout step, and no money moves. |
| OldApp.UnpaidTotalZero | prototype.old/app.js:232-234 | The unpaid total is non-negative, and zero exactly when nobody is unpaid. |
| OldApp.PaidTotalAllPaid | prototype.old/app.js:232-234 | When everyone is paid, the recount is the sum of all payouts, which is positive unless there are no farmers. |
| OldApp.SimulatedWithoutFarmers | prototype.old/app.js:207-212 | With no farmers, the simulation records one demo payout of 50000 without touching the pool. |
| OldApp.SimulatedFarmers | prototype.old/app.js:206-230 | After a simulation every farmer is paid; the list is the settled list at the payout block. |
| OldApp.SimulatedAccounts | prototype.old/app.js:206-230 | A simulation adds one payout per unpaid farmer and their payouts to the total, logs one oracle entry plus one entry per payout, and keeps a non-negative pool non-negative. |
| OldApp.SimulatedReportedTotal | prototype.old/app.js:232-244 | The amount shown is the unpaid total, or, when everyone was already paid, the recount of all payouts. |
| OldApp.ClearPaid | prototype.old/app.js:929 | The reset keeps the number of farmers. |
| OldApp.ClearPaidAt | prototype.old/app.js:929 | Each farmer keeps every field except `paid`, which is cleared. |
| OldApp.ResetThenSimulatePaysAll | prototype.old/app.js:921-933 | After a reset, a new simulation pays every farmer again: the payout count grows by the number of farmers, and the money figures are what the reset left. |
| OldApp.ThresholdsSavedShape | prototype.old/app.js:707-727 | Saving stores the thresholds and logs one admin oracle entry; the counter moves twice, and nothing else changes. |
| OldApp.AuditFilter | prototype.old/app.js:547-557 | The list is the ledger filtered by type and search, and with "all" and no search it is the whole ledger. |
| OldApp.AuditFilterSelects | prototype.old/app.js:547-557 | The filtered list keeps ledger order, holds only entries of the chosen type, and holds each matching entry as often as the ledger does. |
| OldApp.AppState.constructor | prototype.old/app.js:11-27 | The app starts from the defaults. |
| OldApp.AppState.NextBlock | prototype.old/app.js:35-38 | The counter grows by the drawn step. |
| OldApp.AppState.AddLedgerEntry | prototype.old/app.js:42-56 | The state moves to the one `WithEntry` describes, and the entry returned is the one logged. |
| OldApp.AppState.HandleSubmit | prototype.old/app.js:286-330 | The method returns the validation errors. With any error nothing changes; otherwise the state becomes the submitted one. |
| OldApp.AppState.PayAt | prototype.old/app.js:215-228 | One turn of the loop moves to `PayOne`'s state and returns the amount paid: 0 for a paid farmer. |
| OldApp.AppState.PayLoop | prototype.old/app.js:214-229 | The loop leaves the state of the recursive specification, and its total is the unpaid total. |
| OldApp.AppState.PayoutSimulate | prototype.old/app.js:173-244 | The simulation moves to `Simulated`'s state and returns the amount the result panel shows. |
| OldApp.AppState.ResetTrigger | prototype.old/app.js:921-933 | The reset clears the flood flag and every farmer's `paid` flag and leaves the rest of the state as it was. |
| OldApp.AppState.SaveThresholds | prototype.old/app.js:707-727 | The save moves to `ThresholdsSaved`'s state and returns the block the message shows. |
| FarmerPortal.TermsFor | src/pages/farmer/FarmerPortal.jsx:103 | A known tier gets its own terms; an unknown tier gets the standard 50000 / 1500. |
| FarmerPortal.NewFarmer | src/pages/farmer/FarmerPortal.jsx:104-109 | The record is unpaid, carries its tier's terms, and keeps the form's name, tier and unit; its id and registration time are the clock reading. |
| FarmerPortal.RegistrationAccounts | src/pages/farmer/FarmerPortal.jsx:103-112 | A registration appends the farmer, adds the premium to the pool and the coverage to the total, keeps the pool equal to the premiums, and leaves the payout counters and thresholds alone. |
| FarmerPortal.RegistrationLedger | src/pages/farmer/FarmerPortal.jsx:110-112 | Two entries by the farmer are put in front of the ledger: the premium entry newest, at the counter's value, and the registration entry behind it at a lower block. |
| FarmerPortal.HandleRegister | src/pages/farmer/FarmerPortal.jsx:97-112 | With a field missing nothing changes and nothing is returned; otherwise the store becomes `Registration`'s state and the new farmer is returned. |
| FarmerPortal.StatusOf | src/pages/farmer/FarmerPortal.jsx:123 | A card is on alert exactly above the threshold, a warning exactly between three quarters of it and the threshold, and ok exactly at three quarters or below. |
| FarmerPortal.BarPct | src/pages/farmer/FarmerPortal.jsx:125-127 | The bar is at most 100 and exact up to the threshold; it is full exactly from the threshold on, and non-negative for a non-negative reading. |
| FarmerPortal.FullBarIsAlertOrAtThreshold | src/pages/farmer/FarmerPortal.jsx:123-125 | The bar is full exactly when the card is on alert or the reading is exactly at the threshold. |
| FarmerPortal.Payouts | src/pages/farmer/FarmerPortal.jsx:119 | Every listed entry is a payout. |
| FarmerPortal.PayoutsAreThePayoutEntries | src/pages/farmer/FarmerPortal.jsx:119 | The list is a subsequence of the ledger holding every payout entry as often as the ledger does, and nothing else. |
| FarmerPortal.RegistrationAddsNoPayout | src/pages/farmer/FarmerPortal.jsx:110-119 | A registration leaves the payouts list as it was. |
| OraclePortal.SetStep | prototype/src/pages/oracle/OraclePortal.jsx:59-60 | Setting a step changes that position only. |
| OraclePortal.StepsOfAStart | prototype/src/pages/oracle/OraclePortal.jsx:76-93 | The run's step sequence leaves three steps done and the fourth running, and the final step then completes all four. |
| OraclePortal.PayFarmer | prototype/src/pages/oracle/OraclePortal.jsx:85-91 | A farmer paid at the start of the run is skipped. For an unpaid one, `markFarmerPaid` marks the farmer and counts its coverage once, from a pool floored at zero, with one payout entry logged in front. |
| OraclePortal.PayAllCounters | prototype/src/pages/oracle/OraclePortal.jsx:83-91 | The loop adds one payout per farmer unpaid at the start and their coverages to the total, keeps a non-negative pool non-negative, and leaves the thresholds and flags alone. |
| OraclePortal.PayAllLedger | prototype/src/pages/oracle/OraclePortal.jsx:85-91 | The loop puts one payout entry per farmer unpaid at the start in front of the ledger. |
| OraclePortal.PayAllFarmers | prototype/src/pages/oracle/OraclePortal.jsx:84-91 | Each farmer of the store ends settled at the run's block exactly when some farmer unpaid at the start has its id. |
| OraclePortal.PayAllPaysEachUnpaidOnce | prototype/src/pages/oracle/OraclePortal.jsx:84-91 | With distinct ids, after the run every farmer is paid, the unpaid ones at the run's block, and those already paid are unchanged. |
| OraclePortal.ReportedTotal | prototype/src/pages/oracle/OraclePortal.jsx:92 | The total shown is the unpaid coverage when that is not 0, and exactly 175000 when it is, so it is never zero. |
| OraclePortal.ReportedCount | prototype/src/pages/oracle/OraclePortal.jsx:96 | The count shown is the number of farmers when there are any, and exactly 4 when there are none, so it is always positive. |
| OraclePortal.OraclePortal.constructor | prototype/src/pages/oracle/OraclePortal.jsx:20-25 | The portal starts idle, monitoring, with no reading, no result and all steps reset. |
| OraclePortal.OraclePortal.OracleFetch | prototype/src/pages/oracle/OraclePortal.jsx:28-35 | A fetch stores the simulated reading and its evaluation against the store's thresholds and counts one more read. |
| OraclePortal.OraclePortal.PayLoop | prototype/src/pages/oracle/OraclePortal.jsx:83-91 | The loop over the snapshot leaves `PayAll`'s state and returns the unpaid coverage. |
| OraclePortal.OraclePortal.StartFlood | prototype/src/pages/oracle/OraclePortal.jsx:63-81 | Up to the payouts the run does what the app's `BeforePayout` describes: the flag set, one oracle entry and the payout block. Three steps are done and the fourth is running. |
| OraclePortal.OraclePortal.BeginRun | prototype/src/pages/oracle/OraclePortal.jsx:65-69 | The run starts: running, flood status, steps reset and no result. |
| OraclePortal.OraclePortal.RunFlood | prototype/src/pages/oracle/OraclePortal.jsx:63-100 | A run while another is going does nothing. Otherwise the store pays every farmer unpaid at the start at the run's block, and the panel shows the reported total and count, with all steps done. |
| OraclePortal.OraclePortal.FinishFlood | prototype/src/pages/oracle/OraclePortal.jsx:83-98 | The payouts leave `PayAll`'s state, and the panel shows the result. |
| OraclePortal.OraclePortal.ShowResult | prototype/src/pages/oracle/OraclePortal.jsx:93-98 | The last step completes, the run stops, and the result panel shows the given figures. |
| OraclePortal.OraclePortal.ResetOracle | prototype/src/pages/oracle/OraclePortal.jsx:102-112 | The reset clears only the store's flood flag, returns the panel to idle, and takes a fresh normal reading. |
| InsurerPortal.EvClass | src/pages/insurer/InsurerPortal.jsx:15-24 | Each of the five event types gets its own colour, exactly; every other type is grey. |
| InsurerPortal.ShortHash | src/pages/insurer/InsurerPortal.jsx:26 | The result is a dash exactly for an empty hash. Any other hash becomes its first 8 characters (all of a shorter one), an ellipsis, and its last 4 (all of a shorter one); at 12 or more characters this is 13 characters. |
| InsurerPortal.Reserve | src/pages/insurer/InsurerPortal.jsx:44 | The reserve is the premiums in minus the payouts out, floored at zero. |
| InsurerPortal.MarkPaidKeepsPremiums | src/pages/insurer/InsurerPortal.jsx:42-44 | Marking farmers paid leaves the premiums in unchanged. |
| InsurerPortal.PayoutKeepsReserve | src/pages/insurer/InsurerPortal.jsx:42-44 | While the pool equals the reserve, a payout keeps it equal. |
| InsurerPortal.RegistrationKeepsReserve | src/pages/insurer/InsurerPortal.jsx:42-44 | While the premiums cover the payouts, a registration keeps the pool equal to the reserve. |
| InsurerPortal.ReserveLagsAfterOverdraw | src/pages/insurer/InsurerPortal.jsx:42-44 | Once payouts have exceeded the premiums, a registration makes the pool the new premium, while the reserve shown stays below it. |
| InsurerPortal.PayAllKeepsReserve | src/pages/insurer/InsurerPortal.jsx:42-44 | The flood run's payouts keep the pool equal to the reserve. |
| InsurerPortal.PrependedPayoutTotal | src/pages/insurer/InsurerPortal.jsx:57-58 | A new entry adds its amount to the ledger's payout total only when it is a payout. |
| InsurerPortal.PayAllLedgerTotal | src/pages/insurer/InsurerPortal.jsx:57-58 | The flood run moves the ledger's payout total and the store's payout total by the same amount. |
| InsurerPortal.PayAllKeepsFigures | src/pages/insurer/InsurerPortal.jsx:42-58 | The payouts keep both dashboard figures (reserve and payout total) in agreement with the store. |
| InsurerPortal.BeforePayoutKeepsFigures | src/pages/insurer/InsurerPortal.jsx:42-58 | The oracle entry and the payout block keep both figures in agreement. |
| InsurerPortal.FloodRunKeepsFigures | src/pages/insurer/InsurerPortal.jsx:42-58 | A whole flood run keeps both figures in agreement. |
| InsurerPortal.FilteredLedger | src/pages/insurer/InsurerPortal.jsx:47-49 | An entry is shown exactly when it is in the ledger and passes the type filter and the search, and the list keeps ledger order. |
| InsurerPortal.FilteredLedgerShowsAll | src/pages/insurer/InsurerPortal.jsx:47-49 | With "all" and an empty query the whole ledger is shown. |
| InsurerPortal.SearchIgnoresCase | src/pages/insurer/InsurerPortal.jsx:49 | Lower-casing the query does not change the list. |
| InsurerPortal.OwnHashFindsEntry | src/pages/insurer/InsurerPortal.jsx:49 | Searching for an entry's own hash shows that entry. |
| InsurerPortal.CropsOf | src/pages/insurer/InsurerPortal.jsx:52-53 | The chart's keys are distinct and are exactly the crops some farmer grows. |
| InsurerPortal.CountCropFinds | src/pages/insurer/InsurerPortal.jsx:52-54 | A crop's count is positive exactly when some farmer grows it. |
| InsurerPortal.CropCountsCoverFarmers | src/pages/insurer/InsurerPortal.jsx:52-55 | The slices add up to the number of farmers, so each farmer is counted exactly once. |
| InsurerPortal.CropTally | src/pages/insurer/InsurerPortal.jsx:52-53 | The loop's map has exactly the chart's keys, each mapped to its crop's count. |
| InsurerPortal.CropChart | src/pages/insurer/InsurerPortal.jsx:54-55 | With no farmers the chart is one "No data" slice of 1. Otherwise it has one positive slice per crop, holding that crop's count. |
| InsurerPortal.VerifyFindsEveryEntry | src/pages/insurer/InsurerPortal.jsx:202-205 | The hash of any ledger entry verifies and returns an entry with that hash. |
| AdminPortal.SliderPct | prototype/src/pages/admin/AdminPortal.jsx:23-26 | The track fill is 0 at the minimum and 100 at the maximum, and between them within the range. |
| AdminPortal.SliderPctMonotone | prototype/src/pages/admin/AdminPortal.jsx:23-26 | A larger value never fills less. |
| AdminPortal.DefaultsWithinRanges | prototype/src/pages/admin/AdminPortal.jsx:7-16 | The reset positions lie within the slider ranges and equal the store's default thresholds. |
| AdminPortal.SavedShape | prototype/src/pages/admin/AdminPortal.jsx:28-38 | Saving stores exactly the three slider values and logs one admin oracle entry at the counter's new value, 1 to 4 blocks on. Nothing else changes. |
| AdminPortal.AdminPortal.constructor | prototype/src/pages/admin/AdminPortal.jsx:14-21 | The sliders start at the store's thresholds, with coverage 50000, a 6-hour interval and an empty log. |
| AdminPortal.AdminPortal.Slide | prototype/src/pages/admin/AdminPortal.jsx:84-114 | Moving the sliders changes only the local values. |
| AdminPortal.AdminPortal.Save | prototype/src/pages/admin/AdminPortal.jsx:28-38 | The store becomes `Saved`'s state and the sliders stay in sync with it. One log row with the entry is put in front, and the message shows the entry's block. |
| AdminPortal.AdminPortal.ResetAll | prototype/src/pages/admin/AdminPortal.jsx:40-52 | Without confirmation nothing changes. With it, the store and the sliders are back at the defaults and the log and message are cleared. |

## Left out

- src/store/useStore.js and src/lib/blockchain.js, which the farmer and insurer portals import, and prototype/src/lib/oracle.js, which the oracle portal imports, are not part of this model. Their exported functions have the same names and signatures as the ones modelled, and the model takes them to behave as `Store` (prototype/src/store/useStore.js), `Chain` (prototype/src/lib/blockchain.js) and `Oracle` (src/lib/oracle.js) do.
- The server of the older prototype (prototype.old/server.js) and the weather fetch (the live weather is an optional parameter of `Oracle.Simulate`) are not part of this model.
- Cross-tab broadcasting (prototype/src/store/useStore.js:112-121): the sending side is I/O. The receiving side is modelled as `Store.Store.Patch`.
- Serialising to and from local storage: the saved state is the parameter of `Store.Store.Rehydrate`, already parsed.
- The older shared layer's proxy autosave, save, fetch and server-sent-event stream (prototype.old/shared.js:57-117), and the save call inside its `addEntry`: these are I/O.
- Zustand's own merge of the persisted state is taken to be the spread `Domain.Overlay`.
- Randomness, clocks and text formatting are parameters:
  - `Math.random` is a parameter, with its range as a precondition.
  - `Date.now()` and `new Date()` are an integer clock reading `now`.
  - The localised texts of entry descriptions and clock strings are string parameters.
- Timers, delays, toasts and elapsed-time displays. The oracle portal's state updates happen in the order the source makes them, grouped into `OraclePortal.OraclePortal.BeginRun` and `ShowResult`; React's batching and stale closures are not modelled.
- Rendering: JSX, the DOM, canvas drawing and Chart.js, beyond the values they are given.
- Text handling:
  - Form fields are taken as already trimmed.
  - Lower-casing is ASCII only.
  - `parseFloat` is left out: the older form's area is an optional number, and the farmer portal's parsed values are given.
- Numbers are exact: JavaScript's binary doubles are modelled as mathematical reals and integers. So decimal constants such as 62.4 are exact, `toFixed` rounds exact halves up, and no floating-point rounding error is modelled.
- Timestamps: every timestamp is created as a `Date`, so a stored one is an ISO string, JSON `null` (an invalid date written out) or missing. Numeric timestamps, and the empty string, are not modelled.
- The older app's oracle reading and the shared layer's are modelled as `Oracle.AppOracleData` and `Oracle.LegacySimulate`. The weather service whose cache the shared layer reads is not part of this model; the cache is a parameter.
- The display of conditions inside `PayoutEngine.simulate` is left out. The oracle ledger entry it writes is modelled (`OldApp.BeforePayout`), but its text, which quotes the flood reading of `Oracle.PayoutReadingIsFlood`, is the string parameter `oracleNote`.
- OldApp.AppState.HandleSubmit: requires the tier to be one of the form's select options, as the page offers no other.
- InsurerPortal.CropsOf: keys are kept in first-seen order, as JavaScript does for non-numeric keys; a crop name that looks like an integer would be ordered first by JavaScript, and that ordering is not modelled.
- AdminPortal.AdminPortal.Slide: requires only the slider range, not the slider's step granularity.
- Chain.RandomHexInjective: says only that distinct draws give distinct hashes. That a fresh hash was never seen before is a matter of chance and is not stated.
