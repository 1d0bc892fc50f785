# Browser-extension wallet: asset aggregation, swap route names, app-connection nudges

This project models, in Dafny, three pieces of logic of a browser-extension
cryptocurrency wallet and proves properties about them.

1. **User-asset aggregation** (`parseUserAssets`, module `UserAssets`,
   file `user_assets.dfy`). It turns the asset API's list of
   `(quantity, asset)` entries into a dictionary chainId → uniqueId → asset.
   It starts with one empty bucket per requested chain. It keeps only
   entries whose quantity is positive, and a later entry with the same key
   overwrites an earlier one. A positive entry whose chain has no bucket
   makes the routine throw.
   In local "hardhat" mode it also does the following:
   - picks a chain by a fixed flag priority;
   - injects that chain's native asset (and, under `IS_TESTING`, the USDC
     and DAI fixtures);
   - refreshes balances on that chain through a provider, keeping an asset
     whose lookup fails;
   - rebuilds the bucket keyed by uniqueId, so the last result wins.

   The routine is the method `ParseUserAssets`. Its two loops are
   `InsertEntries` and `IndexResults`. It is proved equal to the
   specification function `UserAssetsOf`, and the lemmas state the
   properties of that function.
   Inner buckets are JavaScript objects. A bucket is modelled as the
   sequence of its values in property order: `Put` replaces an existing key
   in place or appends a new one.
2. **Exchange-name and route parsing** (module `SwapReviewDetails`). This
   part is pure functions over strings:
   - the exchange icon URL;
   - `parseExchangeName`, which removes the first `-bridge` and the network
     prefix up to the first `_`;
   - the `bridges` and `swappingRoute` memos.

   The JavaScript string operations they rely on are in module `JsStrings`:
   `toLowerCase`, `indexOf`/`includes`, and `replace` with a string
   pattern, which replaces only the first occurrence.
3. **App-connection nudge watcher** (module `AppConnectionWatcher`). The
   React component is a class, `Watcher`:
   - its state hooks and refs are fields;
   - the two timers are a pending-check context and a banner-hide flag;
   - the wallet-switcher store is two sets of interactions;
   - the sessions passed to `addSession` are a log.

   Each event is one method: address change, route change, the
   check-scheduling effect, each timer firing, a key press, and `connect`.
   The decision rules are pure predicates and functions with lemmas.
   `Valid()` states the invariant every method keeps:
   - at most one nudge is visible;
   - nothing is visible while a check is pending;
   - the sheet is never visible while the banner-hide timer runs;
   - every added session has a host.

Services the code calls but that are not part of this model are
parameters:
- `parseUserAsset`;
- `greaterThan(quantity, 0)`;
- `fetchAssetBalanceViaProvider`, which is deterministic for a given
  provider chain, asset, address and currency;
- the names of the `ChainName` enum, given as a sequence of keys;
- the route constants and keyboard shortcuts (see "Left out").

## Model

| member | source | states |
|---|---|---|
| `UserAssets.Seed` | src/core/resources/assets/common.ts:60-63 | the seeded dictionary has a bucket for exactly the chains in `chainIds`, and every bucket is empty |
| `UserAssets.KeyIndex` | src/core/resources/assets/common.ts:72-73 | the key's position in a bucket is the first position holding that uniqueId, or -1 when no value has it |
| `UserAssets.Put` | src/core/resources/assets/common.ts:72-73 | after `bucket[a.uniqueId] = a`, looking up that key gives `a`, every other key keeps its value, no other value enters, and keys stay distinct |
| `UserAssets.InsertAll` | src/core/resources/assets/common.ts:64-75 | the filtering loop as a fold: a failure names a chain that has no bucket, and a success keeps the set of chains; its contents are stated by the four `InsertAll…` lemmas |
| `UserAssets.InsertAllFailsIffUnbucketed` | src/core/resources/assets/common.ts:64-75 | the loop throws exactly when some entry with a positive quantity parses to a chain that has no bucket; when it succeeds, the set of chains is unchanged |
| `UserAssets.InsertAllLastEntryWins` | src/core/resources/assets/common.ts:65-73 | after the loop, bucket `[c][k]` holds the parse of the LAST positive entry with chain `c` and uniqueId `k` (later entries overwrite earlier ones) |
| `UserAssets.InsertAllKeepsUnmatched` | src/core/resources/assets/common.ts:65-73 | a key that no positive entry writes keeps its previous content; from the empty seed, a key with no positive entry is absent |
| `UserAssets.InsertAllStoresOnlyPositive` | src/core/resources/assets/common.ts:65-74 | every asset in the result lies in the bucket of its own chain, and was either there before or is the parse of an entry whose quantity passed the positive filter |
| `UserAssets.InsertEntries` | src/core/resources/assets/common.ts:64-75 | the `for` loop returns exactly the result of the fold over the entries, or its error |
| `UserAssets.HardhatMode` | src/core/resources/assets/common.ts:82 | the hardhat condition, one of the three flags set; no contract of its own, `HardhatSelectionPriority` states that it decides whether a selection is made |
| `UserAssets.HardhatSelectionPriority` | src/core/resources/assets/common.ts:82-99 | hardhat mode is off iff no flag is set; the flag priority is hardhat > hardhatOp > hardhatPolygon, and the provider chain, mapped chain (1, 10, 137) and native asset (ETH, OP, MATIC) all come from the same flag |
| `UserAssets.Selection` | src/core/resources/assets/common.ts:83-99 | the three ternaries: a selection exists only in hardhat mode, its mapped chain is 1, 10 or 137 and its native asset is the ETH, OP or MATIC fixture; `HardhatSelectionPriority` states which flag picks which |
| `UserAssets.WithFixtures` | src/core/resources/assets/common.ts:103-108 | after the injections, the mapped bucket holds the native asset's key, and it holds `native` itself unless, under `IS_TESTING`, USDC or DAI shares its key; under `IS_TESTING` it holds DAI under DAI's key, and USDC under USDC's key unless DAI shares it; every other key keeps the loop's value, and keys stay distinct |
| `UserAssets.RefreshOne` | src/core/resources/assets/common.ts:110-124 | one balance request: an asset of another chain or whose fetch fails is kept as it is, and an asset of the mapped chain whose fetch succeeds is replaced by the fetched asset |
| `UserAssets.RefreshAll` | src/core/resources/assets/common.ts:110-126 | the balance requests, awaited in list order, give one result per asset |
| `UserAssets.RefreshAllAt` | src/core/resources/assets/common.ts:110-124 | result `i` is the refresh of asset `i`; an asset of another chain passes through unchanged, a failed fetch keeps the original asset, and a successful fetch on the mapped chain gives the fetched asset |
| `UserAssets.IndexByUniqueId` | src/core/resources/assets/common.ts:127-132 | the rebuilt bucket has distinct keys |
| `UserAssets.IndexByUniqueIdLastWins` | src/core/resources/assets/common.ts:127-132 | the rebuilt bucket holds key `k` exactly when some result has uniqueId `k`, and then holds the last such result |
| `UserAssets.IndexResults` | src/core/resources/assets/common.ts:127-132 | the `reduce` loop yields exactly the re-keyed bucket |
| `UserAssets.UserAssetsOf` | src/core/resources/assets/common.ts:45-137 | with no hardhat flag the result is exactly the filtering loop's result; on success the chains are the loop's chains |
| `UserAssets.HardhatTouchesOnlyMappedChain` | src/core/resources/assets/common.ts:101-134 | in hardhat mode the routine throws iff the mapped chain was not requested; otherwise every other chain's bucket is the loop's, and the mapped bucket is the refreshed, re-keyed bucket |
| `UserAssets.HardhatNativeAssetPresent` | src/core/resources/assets/common.ts:103-134 | in hardhat mode, when the balance lookup keeps uniqueIds, the native asset's key is present in the mapped chain's final bucket |
| `UserAssets.ParseUserAssets` | src/core/resources/assets/common.ts:45-137 | the routine as written (loops, in-place bucket writes, refresh, rebuild) returns exactly `UserAssetsOf`, including its error |
| `JsStrings.LowerChar` | src/entries/popup/hooks/swap/useSwapReviewDetails.ts:16 | `A`-`Z` map to `a`-`z` (code point plus 32), a lowered character is never an upper-case ASCII letter, and any other character is left alone |
| `JsStrings.ToLower` | src/entries/popup/hooks/swap/useSwapReviewDetails.ts:16 | `toLowerCase` keeps the length, lowers each character, and leaves no upper-case letter |
| `JsStrings.ToLowerIdempotent` | src/entries/popup/hooks/swap/useSwapReviewDetails.ts:21-26 | lowering twice is the same as lowering once |
| `JsStrings.IndexOf` | src/entries/popup/hooks/swap/useSwapReviewDetails.ts:27 | `indexOf` returns -1 or an index at which the pattern fits |
| `JsStrings.IndexOfIsFirstOccurrence` | src/entries/popup/hooks/swap/useSwapReviewDetails.ts:26-27 | `indexOf` is -1 iff the pattern does not occur, and otherwise gives the first occurrence |
| `JsStrings.Includes` | src/entries/popup/hooks/swap/useSwapReviewDetails.ts:26 | `includes` holds exactly when the pattern occurs somewhere in the string |
| `JsStrings.IndexOfChar` | src/entries/popup/hooks/swap/useSwapReviewDetails.ts:27 | for one character, `indexOf` is -1 iff the character is absent, and otherwise gives a position holding it with none before |
| `JsStrings.ReplaceFirst` | src/entries/popup/hooks/swap/useSwapReviewDetails.ts:16 | `replace` with a string pattern leaves the string unchanged when the pattern is absent, and otherwise changes the length by the replacement's length minus the pattern's |
| `JsStrings.ReplaceFirstSplits` | src/entries/popup/hooks/swap/useSwapReviewDetails.ts:30 | `replace` cuts out exactly the first occurrence and keeps the text before and after it |
| `JsStrings.ReplaceFirstWithEmpty` | src/entries/popup/hooks/swap/useSwapReviewDetails.ts:30 | `replace(pat, '')` deletes exactly the characters of the first occurrence of `pat` |
| `SwapReviewDetails.ExchangeIconUrl` | src/entries/popup/hooks/swap/useSwapReviewDetails.ts:14-18 | `getExchangeIconUrl` is null exactly for an empty protocol, and otherwise starts with the assets prefix and ends with `.png`; `ExchangeIconUrlShape` states the middle part |
| `SwapReviewDetails.ExchangeIconUrlShape` | src/entries/popup/hooks/swap/useSwapReviewDetails.ts:14-18 | the icon URL is null exactly for an empty protocol; a protocol without a space gives the assets prefix, then the lowered protocol, then `.png` |
| `SwapReviewDetails.ExchangeIconUrlWithSpace` | src/entries/popup/hooks/swap/useSwapReviewDetails.ts:14-18 | for a protocol whose first space is at `i`, the icon URL is the assets prefix, then the protocol lowered with that one space left out (later spaces stay), then `.png` |
| `SwapReviewDetails.RemoveBridge` | src/entries/popup/hooks/swap/useSwapReviewDetails.ts:30 | removing the `-bridge` marker never lengthens the name |
| `SwapReviewDetails.RemoveBridgeCutsFirstOnly` | src/entries/popup/hooks/swap/useSwapReviewDetails.ts:30 | without `-bridge` the name is unchanged; otherwise only its first occurrence is deleted, and later occurrences remain |
| `SwapReviewDetails.SomeNetworkIn` | src/entries/popup/hooks/swap/useSwapReviewDetails.ts:26 | the `some` scan holds iff some lowered network name is contained in the lowered exchange name |
| `SwapReviewDetails.LowerNetworks` | src/entries/popup/hooks/swap/useSwapReviewDetails.ts:21-23 | the network list is the enum keys, each lowered, in the same order |
| `SwapReviewDetails.RemoveNetworks` | src/entries/popup/hooks/swap/useSwapReviewDetails.ts:25-28 | the result is a suffix of the name, in the name's original case |
| `SwapReviewDetails.RemoveNetworksCutsAtFirstUnderscore` | src/entries/popup/hooks/swap/useSwapReviewDetails.ts:25-28 | a name containing no network is returned unchanged, and so is a name with no `_`; otherwise the name is some `_`-free prefix, then `_`, then the result |
| `SwapReviewDetails.ParseExchangeName` | src/entries/popup/hooks/swap/useSwapReviewDetails.ts:20-33 | the parsed exchange name is never longer than the raw name |
| `SwapReviewDetails.Bridges` | src/entries/popup/hooks/swap/useSwapReviewDetails.ts:44-47 | a name is a bridge name exactly when the quote has a non-empty route list whose first route has `usedBridgeNames` containing it; with no routes, an empty route list or no `usedBridgeNames` there are none |
| `SwapReviewDetails.ToRouteEntry` | src/entries/popup/hooks/swap/useSwapReviewDetails.ts:61-66 | one route entry: its name is no longer than the protocol's name, it has an icon iff that name is non-empty, it is a bridge iff the raw name is among the bridges, and its part is copied |
| `SwapReviewDetails.RouteEntries` | src/entries/popup/hooks/swap/useSwapReviewDetails.ts:61-66 | mapping the protocols gives one entry per protocol |
| `SwapReviewDetails.RouteEntriesAt` | src/entries/popup/hooks/swap/useSwapReviewDetails.ts:61-66 | entry `i` of the mapped list is built from protocol `i` |
| `SwapReviewDetails.SwappingRoute` | src/entries/popup/hooks/swap/useSwapReviewDetails.ts:59-68 | the route list is defined exactly when the quote has a protocol list |
| `SwapReviewDetails.SwappingRouteAt` | src/entries/popup/hooks/swap/useSwapReviewDetails.ts:59-68 | the route keeps the protocols' length and order; each entry's name is the parsed name and its icon the icon of the parsed name, its part is copied, and it is a bridge iff the quote has a non-empty route list whose first route has `usedBridgeNames` containing the raw name |
| `SwapReviewDetails.NoRoutesNoBridges` | src/entries/popup/hooks/swap/useSwapReviewDetails.ts:44-46 | with no routes, no route entry is flagged as a bridge |
| `AppConnectionWatcher.LowerCaseMatch` | src/entries/popup/components/AppConnection/AppConnectionWatcher.tsx:93 | `isLowerCaseMatch`: equal strings match, and matching strings have the same length and agree character by character once lowered |
| `AppConnectionWatcher.DifferentActiveSession` | src/entries/popup/components/AppConnection/AppConnectionWatcher.tsx:91-93 | `differentActiveSession` holds only for a present session whose address differs from the current one; `DifferentActiveSessionIgnoresCase` states its case-insensitivity |
| `AppConnectionWatcher.FirstLoad` | src/entries/popup/components/AppConnection/AppConnectionWatcher.tsx:95-96 | `firstLoad` holds only when a previous path exists and is not the home screen |
| `AppConnectionWatcher.DifferentActiveSessionIgnoresCase` | src/entries/popup/components/AppConnection/AppConnectionWatcher.tsx:91-93 | `differentActiveSession` does not depend on the case of the current address, and it is false when the session belongs to the current address |
| `AppConnectionWatcher.SessionChainId` | src/entries/popup/components/AppConnection/AppConnectionWatcher.tsx:48 | the session chain is the active session's chain when it is set and non-zero, and mainnet otherwise (never 0) |
| `AppConnectionWatcher.ShouldScheduleCheck` | src/entries/popup/components/AppConnection/AppConnectionWatcher.tsx:158-164 | the effect's condition implies a present session with another address, and, when no account change happened, that the user arrived on home from a different path |
| `AppConnectionWatcher.CheckOutcome` | src/entries/popup/components/AppConnection/AppConnectionWatcher.tsx:101-124 | the timer's decision is the sheet exactly when the sheet is enabled and the app has not interacted, and is nothing only when the address has already interacted in the app |
| `AppConnectionWatcher.SheetShownOncePerApp` | src/entries/popup/components/AppConnection/AppConnectionWatcher.tsx:101-112 | once the sheet has been shown for a non-empty host and the interactions have been recorded, the same check shows neither sheet nor banner |
| `AppConnectionWatcher.BannerWhenSheetNotDue` | src/entries/popup/components/AppConnection/AppConnectionWatcher.tsx:114-124 | when the sheet is disabled or the app has already interacted, the banner is chosen iff the address has not interacted in this app |
| `AppConnectionWatcher.Watcher.Valid` | src/entries/popup/components/AppConnection/AppConnectionWatcher.tsx:98-142 | the watcher invariant, no contract of its own: at most one nudge visible, nothing visible and no banner timer while a check is pending, no sheet while the banner timer runs, every session has a host; the constructor and every method ensure it |
| `AppConnectionWatcher.Watcher.constructor` | src/entries/popup/components/AppConnection/AppConnectionWatcher.tsx:35-40 | on mount nothing is shown, no timer runs and an account change is recorded, because there is no previous address yet |
| `AppConnectionWatcher.Watcher.Hide` | src/entries/popup/components/AppConnection/AppConnectionWatcher.tsx:136-142 | `hide` clears both visibility flags and cancels both pending timers; nothing else changes |
| `AppConnectionWatcher.Watcher.Connect` | src/entries/popup/components/AppConnection/AppConnectionWatcher.tsx:43-61 | `connect` adds a session, with the session chain or mainnet, only when the app host is non-empty; it hides both nudges and leaves the timers alone |
| `AppConnectionWatcher.Watcher.KeyPressed` | src/entries/popup/components/AppConnection/AppConnectionWatcher.tsx:71-89 | with nothing shown, a key changes nothing and is not consumed; otherwise the key is consumed, CLOSE hides and SELECT connects |
| `AppConnectionWatcher.Watcher.AddressChanged` | src/entries/popup/components/AppConnection/AppConnectionWatcher.tsx:144-149 | an address that differs ignoring case sets `accountChangeHappened` and hides; a same-address change alters nothing but the stored address |
| `AppConnectionWatcher.Watcher.RouteChanged` | src/entries/popup/components/AppConnection/AppConnectionWatcher.tsx:151-155 | any route other than home hides; the previous path is recorded |
| `AppConnectionWatcher.Watcher.TriggerCheck` | src/entries/popup/components/AppConnection/AppConnectionWatcher.tsx:157-170 | a check is scheduled only on home, on first load or after an account change, with a different active session, no switch prompt and the queue head `app-connection`; scheduling resets `accountChangeHappened`, hides, and arms the check |
| `AppConnectionWatcher.Watcher.CheckTimerFired` | src/entries/popup/components/AppConnection/AppConnectionWatcher.tsx:98-125 | the firing shows the sheet when it is enabled and the app has not interacted, recording both interactions for a non-empty host; otherwise it shows the banner and arms its hide timer when the address has not interacted; a cleared check never fires |
| `AppConnectionWatcher.Watcher.BannerTimerFired` | src/entries/popup/components/AppConnection/AppConnectionWatcher.tsx:121-123 | the banner-hide timer, when pending, hides the banner and nothing else |

## Left out

- The display amounts of the swap review screen are not modelled:
  `minimumReceived`, `includedFee` and `exchangeRate`
  (useSwapReviewDetails.ts:49-127). They rest on decimal-string
  arithmetic helpers (`convertRawAmountToBalance`, `divide`, `multiply`,
  `handleSignificantDecimals`) whose code is not part of this model.
- `userAssetsQueryKey` is not modelled. It only wraps `createQueryKey`, and
  the query cache is not part of this model.
- `getProvider` and the RPC balance lookup are a parameter
  (`Services.fetchBalance`), so a repeated lookup of the same asset gives
  the same answer. `Promise.all` is modelled as a sequential map in list
  order, which preserves the order the source's results have.
- The code of `parseUserAsset` and `greaterThan` is not modelled. They are
  parameters. `parseUserAsset` is total; the optional chaining at line 72
  cannot matter, because line 72 reads `uniqueId` anyway.
- The fixture assets (ETH, OP, MATIC, USDC, DAI) come from test utilities
  that are not part of this model, so they are a parameter. The numeric
  values of the hardhat chain ids are not shown either, so the provider
  chain is an enumeration.
- Inner buckets keep insertion order. That matches JavaScript property
  order only when uniqueIds are not integer-like strings. Integer-like keys
  would be enumerated in ascending order first, and that case is not
  modelled.
- `toLowerCase` is modelled for ASCII letters only. Unicode case mapping is
  not part of this model.
- `HardhatNativeAssetPresent`: the native asset is always present right
  after the injection (see `WithFixtures`). After the refresh, its key
  survives only if the provider lookup keeps uniqueIds, so the lemma
  assumes that.
- Watcher: the JSX, `triggerToast` and `i18n` are not modelled.
  `preventDefault` is modelled only as the `prevented` result. Timer
  durations are not modelled; only the order of firing events matters.
- Watcher: React's scheduling is approximated by explicit events. Each
  effect is a method the environment calls. `usePrevious` for the path is
  the path before the last navigation until a `TriggerCheck` render
  catches it up. The values the check timer's callback captured (host,
  address, `nudgeSheetEnabled`) are stored when it is armed. The store's
  interaction queries are read when the timer fires.
- Watcher: `isLowerCaseMatch`, `useAppSession` and the wallet-switcher
  store are not part of this model:
  - `isLowerCaseMatch` is taken to compare lowered strings, with an absent
    previous address never matching, which is why the constructor records
    an account change;
  - `addSession` is a log of sessions;
  - the store is two sets.
- Watcher: the `ROUTES` table and the keyboard shortcut table are not part
  of this model. `HOME_PATH` and `UNLOCK_PATH` are assumed to be `/home`
  and `/unlock`; the proved rules only compare paths with them. The keys
  are an enumeration: CLOSE, SELECT, other.
- Watcher: the sheet component's own use of `setShow` is not modelled. It
  is rendering code outside this component.
- The rest of the repository is build tooling, vendor-SDK forms and
  rendering, and is out of scope: the webpack configuration, the GridPlus
  credential form, the points QR sheet and the test-runner configuration.
