# verifyAssets of the BitBadges Cosmos driver, in Dafny

This project models `CosmosDriver.verifyAssets` of the Blockin Cosmos driver. The
call checks that an address owns the BitBadges badges it must own. It keeps only
the asset requirements whose chain is `"BitBadges"` and walks them in order. For
each one it:

- gets the address's raw balances, either from the balance API or from a
  caller-supplied snapshot keyed by the normalized (cosmos) address;
- checks that `assetIds`, `ownershipTimes` (when present) and `mustOwnAmounts`
  (when truthy) are well-formed UintRanges;
- writes the default ownership time `[now, now]` into the caller's asset object
  when it has none;
- resolves the balances for the requested ids and times;
- checks every resolved amount against the inclusive range `mustOwnAmounts`.

The first failure ends the whole call.

The project has three modules:

- `UintRanges` (`uint_ranges.dfy`) models the JavaScript values that can stand
  where a UintRange is expected. It holds the shape predicate, the `every` over a
  list of such values, and truthiness. A shape check can pass, fail, or throw: it
  throws on `null` (whose `typeof` is `"object"`) and on a field `BigInt` cannot
  convert.
- `Verification` (`verification.dfy`) is the pure specification of the call:
  - `Ledger` chooses the balance source.
  - `Validation` runs the three shape checks in their fixed order.
  - `DefaultTimes` and `Times` give the default ownership time.
  - `FirstViolation` is the balance loop.
  - `ProcessOne` is one asset.
  - `Process` is the asset loop: `Run` over `Steps`, the traces of the assets
    taken one by one. It records the outcome, the ledger lookups in order, and how
    many leading assets passed their shape checks. Those assets reached line 170,
    which writes the default into the ones without `ownershipTimes`.
  - A set of lemmas proves properties of these functions.
- `CosmosDriver` (`cosmos_driver.dfy`) is the imperative driver:
  - The caller's asset objects form the class `Asset`; only `ownershipTimes` is
    mutable.
  - `BitBadgesAssets` is the chain filter.
  - `CheckBalances` is the inner loop, proved equal to `FirstViolation`.
  - `VerifyAsset` is one pass of the outer loop, which writes the default into the
    object and is proved against `ProcessOne`.
  - `VerifyEach` is the outer loop.
  - `VerifyAssets` is the whole call. It is proved to return `Process` of the
    assets' contents before the call. Its ensures also say exactly which objects
    went through line 170, that those hold the default applied to their former
    ownership times, and that every other object is unchanged.
    This holds even when the same object appears twice in the list.

The pieces the driver calls but does not define are fields of the datatype
`World`:

- the address normalization `convertToCosmosAddress`;
- the balance request, which may be rejected;
- the balance resolution `getBalancesForIds`;
- the clock.

Outcomes are tagged values:

- the driver's own errors, which carry the fields their messages print;
- `FetchError`, a rejected balance request;
- `Crash`, a runtime error thrown by the language (reading a field of `null` or
  `undefined`, or a `BigInt` of an unconvertible value).

Where this model and a reading of the driver's intent could differ, the model
follows the code:

- The code has no AND/OR groups of assets, no match-count thresholds, and no error
  for unsupported chains. Assets of other chains are silently dropped.
- Only an absent (falsy) `ownershipTimes` gets the default. A present empty list is
  kept.
- Balances are looked up before the shape checks.

## Model

| member | source | states |
|---|---|---|
| UintRanges.CheckOne | src/CosmosDriver.ts:147-150 | the shape predicate passes iff the value is a non-null object whose `start` and `end` convert to integers ≥ 0; it throws iff the value is `null`, or its `start` cannot be converted, or its `start` is ≥ 0 and its `end` cannot be converted; in every other case (a primitive, a negative `start` before `end` is read, a negative `end`) it fails |
| UintRanges.Truthy | src/CosmosDriver.ts:164 | JavaScript truthiness of `mustOwnAmounts`: absent and `null` are falsy, every object is truthy, a primitive has its own truthiness |
| UintRanges.Every | src/CosmosDriver.ts:147-162 | `every` passes iff every element passes; otherwise its verdict is that of the first element that does not pass, all earlier ones having passed |
| UintRanges.ToRanges | src/CosmosDriver.ts:174-177 | converting a list that passed the check keeps its length, and every converted range has the element's own nonnegative `start` and `end` |
| Verification.LookupOf | src/CosmosDriver.ts:125-145 | the lookup of one asset uses the normalized address; it is a request for the asset's collectionId iff there is no snapshot, and it names exactly the source `Ledger` reads: the request's answer, or the snapshot entry, empty when the key is missing |
| Verification.Ledger | src/CosmosDriver.ts:124-145 | no snapshot: the balance request for (collectionId, normalized address); with a snapshot: always obtained, the entry of the normalized address, empty when the key is missing |
| Verification.Validation | src/CosmosDriver.ts:147-168 | the result is one of five values; success iff assetIds pass, ownershipTimes pass when present and mustOwnAmounts pass when truthy; the errors are raised in the fixed order assetIds, ownershipTimes, mustOwnAmounts: the assetIds error iff assetIds fail, a runtime error iff the first check that does not pass throws, and each later error iff the earlier checks passed and that check fails |
| Verification.DefaultTimes | src/CosmosDriver.ts:170-172 | after line 170 the ownership times are always present; a present list, even empty, is kept; absent times become the single range `[now, now]`, which passes the shape check |
| Verification.WithDefault | src/CosmosDriver.ts:170-172 | writing the default changes only `ownershipTimes`, and nothing at all when they were present |
| Verification.Times | src/CosmosDriver.ts:170-176 | the time set given to balance resolution is `[now, now]` when ownershipTimes is absent and the converted list, element by element, when it is present (even empty) |
| Verification.Bounds | src/CosmosDriver.ts:164-168 | an amount range exists iff mustOwnAmounts is truthy, and then it holds the checked nonnegative `start` and `end` |
| Verification.Violation | src/CosmosDriver.ts:180-198 | a balance outside the range is never a success or a rejected request; it is a runtime error iff there is no truthy amount range; `Insufficient` iff the amount is below `start` (tested first, so even when it is also above `end`), with the address, the balance's badgeIds, the collectionId and `start`; otherwise `Excess` with `end`, the amount being above it |
| Verification.Resolved | src/CosmosDriver.ts:174-178 | balance resolution is asked for the checked assetIds, the checked ownership times the asset holds after line 170, and the raw ledger |
| Verification.FirstViolation | src/CosmosDriver.ts:180-199 | success iff every resolved balance has a range and lies within it, both ends inclusive; otherwise the outcome is the violation of the first balance outside it, every earlier one being inside |
| Verification.ProcessOne | src/CosmosDriver.ts:124-200 | one asset makes exactly the one lookup `LookupOf` of its collectionId, is validated at most once, and an asset that verifies was validated |
| Verification.ProcessOneCases | src/CosmosDriver.ts:124-200 | one asset fails with a rejected request iff its request was rejected; it is validated iff its ledger was obtained and it passed the shape checks; with a ledger, a failed shape check is its outcome; once validated, its outcome is that of the balance loop over its resolved balances and amount range |
| Verification.RunBounds | src/CosmosDriver.ts:123-201 | a loop over single-asset traces validates no more than it looked up and looks up no more than there are; on success it looked up and validated all; on failure it validated all but possibly the last asset it looked up |
| Verification.RunLookups | src/CosmosDriver.ts:123-201 | the i-th lookup of the loop is the lookup of the i-th asset |
| Verification.RunVerifiedIff | src/CosmosDriver.ts:123-201 | the loop succeeds iff every asset's trace verifies |
| Verification.RunFailure | src/CosmosDriver.ts:123-201 | a failing loop reports the outcome of the last asset it looked up, and validated every asset before that one plus that one iff it was validated |
| Verification.RunFailurePrefix | src/CosmosDriver.ts:123-201 | in a failing loop every asset before the last one looked up verified |
| Verification.Process | src/CosmosDriver.ts:123-201 | the asset loop never validates more assets than it looked up ledgers for, nor looks up more than there are; success means every asset was looked up and validated; failure means the loop stopped at most one asset after the last validated one |
| Verification.ProcessLookups | src/CosmosDriver.ts:123-145 | the i-th ledger lookup belongs to the i-th examined asset and uses its collectionId and the normalized address |
| Verification.ProcessStopsAtFailure | src/CosmosDriver.ts:123-201 | a failing call reports the outcome of the last asset it looked up |
| Verification.FailureValidatedCount | src/CosmosDriver.ts:123-201 | a failing call validated every asset before the last one it looked up, and that last one iff it was validated on its own |
| Verification.ResumesAtStart | src/CosmosDriver.ts:123 | a run that has examined no asset resumes into the whole asset loop |
| Verification.ResumesStep | src/CosmosDriver.ts:123-201 | if the next asset verifies (and so was validated), the run resumes after it with its lookups appended; otherwise its outcome, lookups and validated count end the run |
| Verification.ResumesAtEnd | src/CosmosDriver.ts:201 | a run that has examined every asset succeeds with the lookups it made, having validated them all |
| Verification.VerifiedIffEveryAsset | src/CosmosDriver.ts:123-201 | the call succeeds iff every BitBadges asset succeeds on its own |
| Verification.FirstFailureWins | src/CosmosDriver.ts:123-201 | a failing call reports the failure of the first failing asset; every earlier asset passed, and exactly the assets up to it were looked up |
| Verification.SuccessMeansEveryBalanceInRange | src/CosmosDriver.ts:147-199 | on success every asset's ledger was obtained, every asset passed the shape checks, and every resolved balance lies in its inclusive amount range |
| Verification.SnapshotNeverFetchError | src/CosmosDriver.ts:125-145 | with a snapshot no call ends in a rejected request, and every lookup is a snapshot lookup of the normalized address |
| Verification.LookupBeforeValidation | src/CosmosDriver.ts:124-168 | when the balance request is rejected the asset fails with `FetchError` after its one lookup, however malformed it is |
| Verification.DefaultPreservesStep | src/CosmosDriver.ts:170-176 | writing the default into an asset does not change what the loop does with it |
| Verification.DefaultIdempotent | src/CosmosDriver.ts:170-172 | the default is idempotent, always yields a present list, and keeps a present list unchanged |
| Verification.SingleBalanceVerdict | src/CosmosDriver.ts:182-198 | the minimum is tested first: below `start` gives Insufficient with the address, badgeIds and collectionId, even for an inverted range; inside passes on to the next balance; above `end` gives Excess |
| Verification.InvertedRangeRejectsAnyBalance | src/CosmosDriver.ts:164-199 | a range with `start > end` passes the shape check whenever `end ≥ 0`, yet any resolved balance makes the call fail |
| Verification.MissingAmountsCrashOnFirstBalance | src/CosmosDriver.ts:180-182 | without a truthy mustOwnAmounts the first resolved balance throws, and no balances means success |
| Verification.InclusiveBoundary | src/CosmosDriver.ts:181-199 | the range 5..5 accepts exactly the amount 5 |
| CosmosDriver.Asset.constructor | src/CosmosDriver.ts:108 | a new asset object holds the given requirement |
| CosmosDriver.Expected | src/CosmosDriver.ts:112-123 | without `_assets` the call succeeds with no lookup; otherwise it looks up at most one ledger per BitBadges asset, all of them on success, and the i-th lookup is that of the i-th BitBadges asset; it never validates more assets than it looked up |
| CosmosDriver.Values | src/CosmosDriver.ts:123 | the contents of a list of asset objects, element by element |
| CosmosDriver.BitBadgesAssets | src/CosmosDriver.ts:116-118 | the filter keeps no more assets than it was given, all of chain `"BitBadges"` |
| CosmosDriver.BitBadgesAssetsMembers | src/CosmosDriver.ts:116-118 | an object is kept iff it is in the input and its chain is exactly `"BitBadges"` |
| CosmosDriver.BitBadgesAssetsWithin | src/CosmosDriver.ts:116-118 | every kept object comes from the input |
| CosmosDriver.BitBadgesAssetsAppend | src/CosmosDriver.ts:116-118 | the filter keeps the input order: filtering a concatenation concatenates the filtered parts |
| CosmosDriver.OtherChainIgnored | src/CosmosDriver.ts:116-118 | inserting an asset of another chain anywhere changes nothing |
| CosmosDriver.BitBadgesAssetsIdempotent | src/CosmosDriver.ts:116-118 | filtering twice is filtering once |
| CosmosDriver.NoBitBadgesAssets | src/CosmosDriver.ts:116-120 | with no BitBadges asset the filter is empty |
| CosmosDriver.NothingToVerify | src/CosmosDriver.ts:116-120 | with `_assets` absent or without BitBadges assets the call succeeds with no lookup and no default written |
| CosmosDriver.OnlyBitBadgesAssetsMatter | src/CosmosDriver.ts:116-123 | dropping the assets of other chains changes neither the outcome nor the lookups |
| CosmosDriver.ElementsOfPrefix | src/CosmosDriver.ts:123 | the objects among the first n assets are exactly those of the prefix of length n |
| CosmosDriver.WrittenIsPrefix | src/CosmosDriver.ts:170-172 | the objects that receive the default are exactly those of the validated prefix of the BitBadges assets |
| CosmosDriver.CheckBalances | src/CosmosDriver.ts:180-200 | the inner loop returns exactly `FirstViolation` of the resolved balances and their amount range |
| CosmosDriver.VerifyAsset | src/CosmosDriver.ts:124-200 | one pass returns the outcome and the single lookup of `ProcessOne` for the asset's content at the start of the call; the object's ownership times receive the default iff the asset passed its shape checks |
| CosmosDriver.VisitAsset | src/CosmosDriver.ts:123-201 | one pass either lets the run resume after this asset with its lookup appended, or ends it with the run's outcome; the default is recorded in exactly this object |
| CosmosDriver.VerifyEach | src/CosmosDriver.ts:122-203 | given the trace of each asset's content before the loop, the loop returns the outcome and the lookups of `Run` over them; the objects of the validated prefix hold the default applied to their former times, and every other object is as it was |
| CosmosDriver.VerifyAssets | src/CosmosDriver.ts:108-205 | the call returns the outcome and the lookups of `Expected` on the contents before the call; `resources` has no effect; exactly the objects of the validated BitBadges prefix receive the default, and all other assets are unchanged |

## Left out

- The balance request over HTTP (axios, the API endpoint, the API-key header, lines 126-140) is network I/O. It is the parameter `World.fetch`, whose answer is the converted balances or a rejection.
- `getBalancesForIds`, `convertBalance`, `convertUintRange`, `BigIntify` and `convertToCosmosAddress` are library routines whose code is not part of this model. Balance resolution and address normalization are parameters of `World`. A checked UintRange converts field by field.
- `World.toCosmos` and `World.resolve` are total functions: `convertToCosmosAddress` (lines 128, 142) and `getBalancesForIds` (line 174) are taken never to throw. Resolution may return any list of balances, but it always returns one.
- `World.fetch` is a function of (collectionId, cosmos address), so two requests for the same pair get the same answer. Lines 126-138 send a fresh request for every asset, and a second request could be answered differently or rejected. `DefaultPreservesStep` and the ensures of `VerifyAsset`, which treat an object that appears twice as behaving the same both times, depend on this.
- `getChainForAddress`, `isValidAddress` (lines 63-65), `verifySignature` (lines 72-106), the stubs that throw "Not implemented" (lines 30-61, 68-71) and `createUniversalTxn` (lines 209-216) are not modelled. They are foreign delegations, cryptography, or trivial.
- `Date.now()` is read as one instant `World.now`. The two reads of line 171 are taken to agree.
- The async and Promise plumbing is not modelled, and neither is the English wording of the error messages. Each error is a tagged value that carries the fields its message prints.
- The `chain` field of the driver object is not used by `verifyAssets` and is not modelled.
- `assetIds` is taken to be a list. An absent `assetIds`, or an element of `_assets` that is itself `null`, would throw before or during line 148; neither case is modelled.
- `collectionId` is modelled as a string.
- A reply of the balance API with an unexpected shape is not modelled. `convertBalance` is taken to yield integers.
