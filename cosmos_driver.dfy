/** `CosmosDriver.verifyAssets`: the imperative asset loop over caller-owned asset
    objects, proved against the specification in module Verification. */
module CosmosDriver {
  import opened UintRanges
  import opened Verification

  /** An asset requirement as the caller passes it. Only `ownershipTimes` is ever
      written (the default time); the other fields are only read. */
  class Asset {
    const chain: string
    const collectionId: string
    const assetIds: seq<RangeLike>
    var ownershipTimes: Option<seq<RangeLike>>
    const mustOwnAmounts: Option<RangeLike>

    constructor (chain: string, collectionId: string, assetIds: seq<RangeLike>,
                 ownershipTimes: Option<seq<RangeLike>>, mustOwnAmounts: Option<RangeLike>)
      ensures Value() == AssetValue(chain, collectionId, assetIds, ownershipTimes, mustOwnAmounts)
    {
      this.chain := chain;
      this.collectionId := collectionId;
      this.assetIds := assetIds;
      this.ownershipTimes := ownershipTimes;
      this.mustOwnAmounts := mustOwnAmounts;
    }

    /** The current contents of this asset object. */
    function Value(): AssetValue
      reads this
    {
      AssetValue(chain, collectionId, assetIds, ownershipTimes, mustOwnAmounts)
    }
  }

  function Objects(assets: Option<seq<Asset>>): set<Asset>
  {
    if assets.None? then {} else set a | a in assets.value
  }

  /** The current contents of a list of asset objects, element by element. */
  function Values(objs: seq<Asset>): (vs: seq<AssetValue>)
    reads set a | a in objs
    ensures |vs| == |objs|
    ensures forall i :: 0 <= i < |objs| ==> vs[i] == objs[i].Value()
  {
    if objs == [] then [] else [objs[0].Value()] + Values(objs[1..])
  }

  /** `_assets.filter((elem) => elem.chain === "BitBadges")`. */
  function BitBadgesAssets(assets: seq<Asset>): (r: seq<Asset>)
    ensures |r| <= |assets|
    ensures forall i :: 0 <= i < |r| ==> r[i].chain == "BitBadges"
  {
    if assets == [] then []
    else (if assets[0].chain == "BitBadges" then [assets[0]] else []) + BitBadgesAssets(assets[1..])
  }

  lemma BitBadgesAssetsWithin(assets: seq<Asset>)
    ensures forall a :: a in BitBadgesAssets(assets) ==> a in assets
  {
    BitBadgesAssetsMembers(assets);
  }

  /** The filter keeps exactly the assets whose chain is "BitBadges". */
  lemma {:induction false} BitBadgesAssetsMembers(assets: seq<Asset>)
    ensures forall a :: a in BitBadgesAssets(assets) <==> a in assets && a.chain == "BitBadges"
  {
    if assets != [] {
      BitBadgesAssetsMembers(assets[1..]);
      assert forall a :: a in assets <==> a == assets[0] || a in assets[1..];
    }
  }

  /** The filter keeps the order of its input: filtering a concatenation is
      concatenating the filtered parts. */
  lemma {:induction false} BitBadgesAssetsAppend(xs: seq<Asset>, ys: seq<Asset>)
    ensures BitBadgesAssets(xs + ys) == BitBadgesAssets(xs) + BitBadgesAssets(ys)
  {
    if xs == [] {
      assert xs + ys == ys;
    } else {
      assert (xs + ys)[0] == xs[0];
      assert (xs + ys)[1..] == xs[1..] + ys;
      BitBadgesAssetsAppend(xs[1..], ys);
    }
  }

  /** An asset of any other chain, wherever it stands, is ignored. */
  lemma OtherChainIgnored(xs: seq<Asset>, a: Asset, ys: seq<Asset>)
    requires a.chain != "BitBadges"
    ensures BitBadgesAssets(xs + [a] + ys) == BitBadgesAssets(xs + ys)
  {
    BitBadgesAssetsAppend(xs + [a], ys);
    BitBadgesAssetsAppend(xs, [a]);
    BitBadgesAssetsAppend(xs, ys);
    assert BitBadgesAssets([a]) == [] + BitBadgesAssets([]);
  }

  /** What `verifyAssets` does, as a function of the assets' contents before the call. */
  function Expected(address: string, assets: Option<seq<Asset>>, snapshot: Option<Snapshot>, w: World): (t: Trace)
    reads Objects(assets)
    ensures assets.None? ==> t == Trace(Verified, [], 0)
    ensures t.validated <= |t.lookups|
    ensures assets.Some? ==> |t.lookups| <= |BitBadgesAssets(assets.value)|
    ensures assets.Some? && t.outcome == Verified ==> |t.lookups| == |BitBadgesAssets(assets.value)|
    ensures assets.Some? ==> forall i :: 0 <= i < |t.lookups| ==>
      t.lookups[i] == LookupOf(address, BitBadgesAssets(assets.value)[i].collectionId, snapshot, w)
  {
    if assets.None? then Trace(Verified, [], 0)
    else
      BitBadgesAssetsWithin(assets.value);
      var vals := Values(BitBadgesAssets(assets.value));
      ProcessLookups(address, vals, snapshot, w);
      Process(address, vals, snapshot, w)
  }

  /** With `_assets` absent, or with no BitBadges asset among them, the call succeeds
      without looking up any ledger and without writing into any asset. */
  lemma NothingToVerify(address: string, assets: Option<seq<Asset>>, snapshot: Option<Snapshot>, w: World)
    requires assets.Some? ==> forall i :: 0 <= i < |assets.value| ==> assets.value[i].chain != "BitBadges"
    ensures Expected(address, assets, snapshot, w) == Trace(Verified, [], 0)
  {
    if assets.Some? {
      NoBitBadgesAssets(assets.value);
    }
  }

  lemma {:induction false} NoBitBadgesAssets(assets: seq<Asset>)
    requires forall i :: 0 <= i < |assets| ==> assets[i].chain != "BitBadges"
    ensures BitBadgesAssets(assets) == []
  {
    if assets != [] {
      NoBitBadgesAssets(assets[1..]);
    }
  }

  /** Only the BitBadges assets decide the result: dropping the others changes nothing. */
  lemma OnlyBitBadgesAssetsMatter(address: string, assets: seq<Asset>, snapshot: Option<Snapshot>, w: World)
    ensures Expected(address, Some(assets), snapshot, w) == Expected(address, Some(BitBadgesAssets(assets)), snapshot, w)
  {
    BitBadgesAssetsIdempotent(assets);
  }

  lemma {:induction false} BitBadgesAssetsIdempotent(assets: seq<Asset>)
    ensures BitBadgesAssets(BitBadgesAssets(assets)) == BitBadgesAssets(assets)
  {
    if assets != [] {
      var head := if assets[0].chain == "BitBadges" then [assets[0]] else [];
      BitBadgesAssetsAppend(head, BitBadgesAssets(assets[1..]));
      BitBadgesAssetsIdempotent(assets[1..]);
      if head != [] {
        assert BitBadgesAssets(head) == head + BitBadgesAssets([]);
      } else {
        assert BitBadgesAssets(head) == [];
      }
    }
  }

  /** The balance loop (lines 180-200): each resolved balance in order, failing at the
      first whose amount is below the minimum or above the maximum. `bounds` is `None`
      when `mustOwnAmounts` is falsy, and then the first balance throws. */
  method CheckBalances(address: string, collectionId: string, balances: seq<Balance>, bounds: Option<Range>)
    returns (r: Outcome)
    ensures r == FirstViolation(address, collectionId, balances, bounds)
  {
    var i := 0;
    while i < |balances|
      invariant 0 <= i <= |balances|
      invariant FirstViolation(address, collectionId, balances, bounds) == FirstViolation(address, collectionId, balances[i..], bounds)
    {
      assert balances[i..][1..] == balances[i + 1..];
      var balance := balances[i];
      if bounds.None? {
        return Crash;
      }
      if balance.amount < bounds.value.start {
        return Insufficient(address, balance.badgeIds, collectionId, bounds.value.start);
      }
      if balance.amount > bounds.value.end {
        return Excess(address, balance.badgeIds, collectionId, bounds.value.end);
      }
      i := i + 1;
    }
    assert balances[i..] == [];
    return Verified;
  }

  /** The objects among the first `n` of `objs`. */
  ghost function Elements(objs: seq<Asset>, n: nat): set<Asset>
    requires n <= |objs|
  {
    if n == 0 then {} else Elements(objs, n - 1) + {objs[n - 1]}
  }

  lemma {:induction false} ElementsOfPrefix(objs: seq<Asset>, n: nat)
    requires n <= |objs|
    ensures forall a :: a in Elements(objs, n) <==> a in objs[..n]
  {
    if n > 0 {
      ElementsOfPrefix(objs, n - 1);
      assert objs[..n] == objs[..n - 1] + [objs[n - 1]];
    }
  }

  /** One pass of the asset loop, seen from the loop: asset `k` of a run over the
      traces `steps` of the assets' contents `vals` that has verified the assets before
      it. It either lets the run resume after asset `k` or ends it with the run's
      outcome, and it leaves every other object's ownership times as they were. */
  method VisitAsset(address: string, asset: Asset, snapshot: Option<Snapshot>, w: World,
                    ghost vals: seq<AssetValue>, ghost steps: seq<Trace>, ghost k: nat, ghost done: seq<Lookup>,
                    ghost spec: Trace, ghost objs: set<Asset>, ghost orig: map<Asset, Option<seq<RangeLike>>>,
                    ghost written: set<Asset>)
    returns (r: Outcome, ghost lookup: Lookup, ghost validated: bool)
    requires StepsOf(address, vals, snapshot, w, steps)
    requires k < |vals| && Resumes(steps, k, done, spec)
    requires asset.Value() in {vals[k], WithDefault(vals[k], w.now)}
    requires asset in objs && DefaultsAppliedTo(objs, orig, written, w.now)
    modifies asset
    ensures r == Verified ==> validated && Resumes(steps, k + 1, done + [lookup], spec)
    ensures r != Verified ==> spec == Trace(r, done + [lookup], if validated then k + 1 else k)
    ensures DefaultsAppliedTo(objs, orig, if validated then written + {asset} else written, w.now)
  {
    r, lookup := VerifyAsset(address, asset, snapshot, w, vals[k]);
    assert steps[k] == ProcessOne(address, vals[k], snapshot, w);
    ResumesStep(steps, k, done, spec);
    validated := steps[k].validated == 1;
    ghost var after := if validated then written + {asset} else written;
    forall a | a in objs
      ensures a in orig && a.ownershipTimes == if a in after then DefaultTimes(orig[a], w.now) else orig[a]
    {
      if a == asset {
        DefaultIdempotent(orig[a], w.now);
      }
    }
  }

  /** One pass of the asset loop (lines 124-200) on one asset object: ledger lookup,
      shape checks, the default ownership time written into the object, balance
      resolution and the amount check. `original` is the asset's content when the
      call began; by then an earlier pass over the same object may have written the
      default already, which changes nothing in the outcome. */
  method VerifyAsset(address: string, asset: Asset, snapshot: Option<Snapshot>, w: World, ghost original: AssetValue)
    returns (r: Outcome, ghost lookup: Lookup)
    requires asset.Value() in {original, WithDefault(original, w.now)}
    modifies asset
    ensures var t := ProcessOne(address, original, snapshot, w);
      r == t.outcome && [lookup] == t.lookups
    ensures asset.ownershipTimes ==
      if ProcessOne(address, original, snapshot, w).validated == 1
      then DefaultTimes(old(asset.ownershipTimes), w.now)
      else old(asset.ownershipTimes)
  {
    ghost var v := asset.Value();
    DefaultPreservesStep(address, original, snapshot, w);
    // lines 124-145: the raw ledger
    var docBalances: seq<Balance>;
    var cosmosAddress := w.toCosmos(address);
    if snapshot.None? {
      lookup := Remote(asset.collectionId, cosmosAddress);
      var response := w.fetch(asset.collectionId, cosmosAddress);
      if response.FetchFailed? {
        return FetchError, lookup;
      }
      docBalances := response.balances;
    } else {
      lookup := FromSnapshot(cosmosAddress);
      docBalances := if cosmosAddress in snapshot.value then snapshot.value[cosmosAddress] else [];
    }
    assert Ledger(address, v.collectionId, snapshot, w) == Fetched(docBalances);

    // lines 147-168: the shape checks
    var ids := Every(asset.assetIds);
    if ids == Fail {
      return AssetIdsNotUintRanges, lookup;
    } else if ids == Throws {
      return Crash, lookup;
    }
    if asset.ownershipTimes.Some? {
      var times := Every(asset.ownershipTimes.value);
      if times == Fail {
        return OwnershipTimesNotUintRanges, lookup;
      } else if times == Throws {
        return Crash, lookup;
      }
    }
    if Truthy(asset.mustOwnAmounts) {
      var amounts := CheckOne(asset.mustOwnAmounts.value);
      if amounts == Fail {
        return MustOwnNotUintRange, lookup;
      } else if amounts == Throws {
        return Crash, lookup;
      }
    }
    assert Validation(v) == Verified;

    // lines 170-172: the default ownership time, written into the caller's object
    if asset.ownershipTimes.None? {
      asset.ownershipTimes := Some([NowRange(w.now)]);
    }
    assert Every([NowRange(w.now)]) == Pass;

    // lines 174-178: balance resolution
    var balances := w.resolve(ToRanges(asset.assetIds), ToRanges(asset.ownershipTimes.value), docBalances);
    assert balances == Resolved(v, docBalances, w);

    // lines 180-200: the amount check
    var bounds := Bounds(asset.mustOwnAmounts);
    r := CheckBalances(address, asset.collectionId, balances, bounds);
  }

  /** The objects among the first `n` BitBadges assets of `assets`: those whose
      ownership times a run that validated `n` assets has passed through line 170. */
  ghost function Written(assets: Option<seq<Asset>>, n: nat): set<Asset>
  {
    if assets.None? then {}
    else
      var bb := BitBadgesAssets(assets.value);
      Elements(bb, if n <= |bb| then n else |bb|)
  }

  lemma WrittenIsPrefix(assets: seq<Asset>, n: nat)
    requires n <= |BitBadgesAssets(assets)|
    ensures forall a :: a in Written(Some(assets), n) <==> a in BitBadgesAssets(assets)[..n]
  {
    ElementsOfPrefix(BitBadgesAssets(assets), n);
  }

  /** Since the call began, the objects of `written` among `objs` hold the default
      ownership time of line 170 and the others hold what they held. */
  twostate predicate DefaultsApplied(objs: set<Asset>, written: set<Asset>, now: nat)
    reads objs
  {
    DefaultsAppliedTo(objs, old(TimesOf(objs)), written, now)
  }

  /** The ownership times each object of `objs` holds now. */
  ghost function TimesOf(objs: set<Asset>): (m: map<Asset, Option<seq<RangeLike>>>)
    reads objs
    ensures forall a :: a in objs ==> a in m && m[a] == a.ownershipTimes
  {
    map a | a in objs :: a.ownershipTimes
  }

  /** The objects of `written` among `objs` hold the default ownership time of line 170
      applied to the times recorded for them in `orig`, and the others hold those times. */
  ghost predicate DefaultsAppliedTo(objs: set<Asset>, orig: map<Asset, Option<seq<RangeLike>>>, written: set<Asset>, now: nat)
    reads objs
  {
    forall a :: a in objs ==>
      a in orig && a.ownershipTimes == if a in written then DefaultTimes(orig[a], now) else orig[a]
  }

  /** `verifyAssets(address, resources, _assets, balancesSnapshot)`. `resources` is
      accepted and ignored. The result and the ledger lookups are those of `Expected`
      on the assets' contents before the call; afterwards the ownership times of the
      leading BitBadges assets that passed their shape checks hold the default of
      line 170 applied to what they held, and every other asset is as it was. */
  method VerifyAssets(address: string, resources: Option<seq<string>>, assets: Option<seq<Asset>>,
                      snapshot: Option<Snapshot>, w: World)
    returns (r: Outcome, ghost lookups: seq<Lookup>)
    modifies Objects(assets)
    ensures r == old(Expected(address, assets, snapshot, w)).outcome
    ensures lookups == old(Expected(address, assets, snapshot, w)).lookups
    ensures DefaultsApplied(Objects(assets), Written(assets, old(Expected(address, assets, snapshot, w)).validated), w.now)
  {
    lookups := [];
    var bitbadgesAssets: seq<Asset> := [];
    if assets.Some? {
      bitbadgesAssets := BitBadgesAssets(assets.value);
    }
    if |bitbadgesAssets| == 0 {
      assert Values(bitbadgesAssets) == [];
      return Verified, lookups;
    }
    BitBadgesAssetsWithin(assets.value);
    ghost var steps := Steps(address, Values(bitbadgesAssets), snapshot, w);
    assert Expected(address, assets, snapshot, w) == Run(steps);
    r, lookups := VerifyEach(address, bitbadgesAssets, snapshot, w, Objects(assets), steps);
  }

  /** The loop of lines 123-201 over the BitBadges assets, in order, stopping at the
      first asset that fails. Given the trace `steps` of each asset's content before
      the loop, its result and lookups are those of `Run(steps)`, and exactly the
      assets the run validated go through line 170. */
  method VerifyEach(address: string, bitbadgesAssets: seq<Asset>, snapshot: Option<Snapshot>, w: World,
                    ghost objs: set<Asset>, ghost steps: seq<Trace>)
    returns (r: Outcome, ghost lookups: seq<Lookup>)
    requires forall j :: 0 <= j < |bitbadgesAssets| ==> bitbadgesAssets[j] in objs
    requires StepsOf(address, Values(bitbadgesAssets), snapshot, w, steps)
    modifies objs
    ensures r == Run(steps).outcome
    ensures lookups == Run(steps).lookups
    ensures Run(steps).validated <= |bitbadgesAssets|
    ensures DefaultsApplied(objs, Elements(bitbadgesAssets, Run(steps).validated), w.now)
  {
    lookups := [];
    ghost var vals := Values(bitbadgesAssets);
    ghost var spec := Run(steps);
    ghost var orig := TimesOf(objs);
    ghost var written: set<Asset> := {};
    ResumesAtStart(steps);
    var k := 0;
    while k < |bitbadgesAssets|
      invariant 0 <= k <= |bitbadgesAssets|
      invariant vals == old(Values(bitbadgesAssets))
      invariant Resumes(steps, k, lookups, spec)
      invariant written == Elements(bitbadgesAssets, k)
      invariant DefaultsAppliedTo(objs, orig, written, w.now)
    {
      var asset := bitbadgesAssets[k];
      assert vals[k] == old(asset.Value());
      assert asset.Value() in {vals[k], WithDefault(vals[k], w.now)};
      ghost var lookup, validated;
      r, lookup, validated := VisitAsset(address, asset, snapshot, w, vals, steps, k, lookups, spec, objs, orig, written);
      lookups := lookups + [lookup];
      if r != Verified {
        if validated {
          written := written + {asset};
        }
        assert written == Elements(bitbadgesAssets, spec.validated);
        return r, lookups;
      }
      written := written + {asset};
      k := k + 1;
    }
    ResumesAtEnd(steps, lookups, spec);
    return Verified, lookups;
  }
}
