/** The pure specification of `verifyAssets`: what one BitBadges asset requirement
    yields (balance source, shape checks, default ownership time, amount-range
    check over the resolved balances) and how the per-asset results combine. */
module Verification {
  import opened UintRanges

  /** A `Balance<bigint>`: `amount` of the badges `badgeIds`, owned during `ownershipTimes`. */
  datatype Balance = Balance(amount: int, badgeIds: seq<Range>, ownershipTimes: seq<Range>)

  /** The answer of the balance API: the address's converted balances, or a rejected request. */
  datatype Fetch = Fetched(balances: seq<Balance>) | FetchFailed

  /** The collaborators `verifyAssets` calls that are not part of this model. */
  datatype World = World(
    toCosmos: string -> string,                    // convertToCosmosAddress
    fetch: (string, string) -> Fetch,              // balance request for (collectionId, cosmos address)
    resolve: (seq<Range>, seq<Range>, seq<Balance>) -> seq<Balance>,  // getBalancesForIds(ids, times, ledger)
    now: nat)                                      // the clock read by Date.now()

  /** `OffChainBalancesMap`: cosmos address to that address's balances. */
  type Snapshot = map<string, seq<Balance>>

  /** Where the raw ledger of one asset was looked up. */
  datatype Lookup = Remote(collectionId: string, cosmosAddress: string) | FromSnapshot(cosmosAddress: string)

  /** How a call ends: success, one of the driver's own errors, a rejected balance
      request, or a runtime error thrown by the language itself. */
  datatype Outcome =
    | Verified
    | AssetIdsNotUintRanges
    | OwnershipTimesNotUintRanges
    | MustOwnNotUintRange
    | Insufficient(address: string, badgeIds: seq<Range>, collectionId: string, min: int)
    | Excess(address: string, badgeIds: seq<Range>, collectionId: string, max: int)
    | FetchError
    | Crash

  /** The fields of one asset requirement that `verifyAssets` reads. */
  datatype AssetValue = AssetValue(
    chain: string,
    collectionId: string,
    assetIds: seq<RangeLike>,
    ownershipTimes: Option<seq<RangeLike>>,
    mustOwnAmounts: Option<RangeLike>)

  /** What a run of the asset loop does: its outcome, the ledger lookups it made in
      order, and how many leading assets got past their shape checks, that is, reached
      line 170, where an absent `ownershipTimes` receives the default. */
  datatype Trace = Trace(outcome: Outcome, lookups: seq<Lookup>, validated: nat)

  /** The lookup one asset makes: a request for its collection and the normalized
      address when there is no snapshot, otherwise a read of the snapshot under the
      normalized address. It names exactly the source `Ledger` reads. */
  function LookupOf(address: string, collectionId: string, snapshot: Option<Snapshot>, w: World): (l: Lookup)
    ensures l.cosmosAddress == w.toCosmos(address)
    ensures l.Remote? <==> snapshot.None?
    ensures l.Remote? ==> l.collectionId == collectionId
    ensures l.Remote? ==> Ledger(address, collectionId, snapshot, w) == w.fetch(l.collectionId, l.cosmosAddress)
    ensures l.FromSnapshot? ==>
      Ledger(address, collectionId, snapshot, w)
        == Fetched(if l.cosmosAddress in snapshot.value then snapshot.value[l.cosmosAddress] else [])
  {
    if snapshot.None? then Remote(collectionId, w.toCosmos(address)) else FromSnapshot(w.toCosmos(address))
  }

  /** The raw ledger of one asset: the remote source when there is no snapshot,
      otherwise the snapshot entry of the normalized address, empty when absent. */
  function Ledger(address: string, collectionId: string, snapshot: Option<Snapshot>, w: World): (f: Fetch)
    ensures snapshot.None? ==> f == w.fetch(collectionId, w.toCosmos(address))
    ensures snapshot.Some? ==> f.Fetched?
    ensures snapshot.Some? && w.toCosmos(address) in snapshot.value ==> f.balances == snapshot.value[w.toCosmos(address)]
    ensures snapshot.Some? && w.toCosmos(address) !in snapshot.value ==> f.balances == []
  {
    match snapshot
    case None => w.fetch(collectionId, w.toCosmos(address))
    case Some(m) =>
      var key := w.toCosmos(address);
      Fetched(if key in m then m[key] else [])
  }

  /** The three shape checks, in their fixed order; `Verified` when all pass. */
  function Validation(v: AssetValue): (o: Outcome)
    ensures o in {Verified, AssetIdsNotUintRanges, OwnershipTimesNotUintRanges, MustOwnNotUintRange, Crash}
    ensures o == Verified <==>
      && Every(v.assetIds) == Pass
      && (v.ownershipTimes.Some? ==> Every(v.ownershipTimes.value) == Pass)
      && (Truthy(v.mustOwnAmounts) ==> CheckOne(v.mustOwnAmounts.value) == Pass)
    ensures o == AssetIdsNotUintRanges <==> Every(v.assetIds) == Fail
    ensures o == Crash <==>
      || Every(v.assetIds) == Throws
      || (Every(v.assetIds) == Pass && v.ownershipTimes.Some? && Every(v.ownershipTimes.value) == Throws)
      || (&& Every(v.assetIds) == Pass
          && (v.ownershipTimes.Some? ==> Every(v.ownershipTimes.value) == Pass)
          && Truthy(v.mustOwnAmounts) && CheckOne(v.mustOwnAmounts.value) == Throws)
    ensures o == OwnershipTimesNotUintRanges <==>
      Every(v.assetIds) == Pass && v.ownershipTimes.Some? && Every(v.ownershipTimes.value) == Fail
    ensures o == MustOwnNotUintRange <==>
      && Every(v.assetIds) == Pass
      && (v.ownershipTimes.Some? ==> Every(v.ownershipTimes.value) == Pass)
      && Truthy(v.mustOwnAmounts) && CheckOne(v.mustOwnAmounts.value) == Fail
  {
    var ids := Every(v.assetIds);
    if ids == Fail then AssetIdsNotUintRanges
    else if ids == Throws then Crash
    else
      var times := if v.ownershipTimes.Some? then Every(v.ownershipTimes.value) else Pass;
      if times == Fail then OwnershipTimesNotUintRanges
      else if times == Throws then Crash
      else
        var amounts := if Truthy(v.mustOwnAmounts) then CheckOne(v.mustOwnAmounts.value) else Pass;
        if amounts == Fail then MustOwnNotUintRange
        else if amounts == Throws then Crash
        else Verified
  }

  /** The single instant `[now, now]` as the caller would have written it. */
  function NowRange(now: nat): RangeLike
  {
    Obj(Num(now), Num(now))
  }

  /** The ownership times after line 170: absent times become `[now, now]`; a present
      list, even an empty one, is kept. */
  function DefaultTimes(ot: Option<seq<RangeLike>>, now: nat): (d: Option<seq<RangeLike>>)
    ensures d.Some?
    ensures ot.Some? ==> d == ot
    ensures ot.None? ==> d.value == [NowRange(now)] && CheckOne(NowRange(now)) == Pass
  {
    if ot.None? then Some([NowRange(now)]) else ot
  }

  /** The asset after line 170: only its ownership times can differ. */
  function WithDefault(v: AssetValue, now: nat): (d: AssetValue)
    ensures d.chain == v.chain && d.collectionId == v.collectionId
    ensures d.assetIds == v.assetIds && d.mustOwnAmounts == v.mustOwnAmounts
    ensures d.ownershipTimes == DefaultTimes(v.ownershipTimes, now)
    ensures v.ownershipTimes.Some? ==> d == v
  {
    v.(ownershipTimes := DefaultTimes(v.ownershipTimes, now))
  }

  /** The time ranges handed to balance resolution. */
  function Times(ot: Option<seq<RangeLike>>, now: nat): (ts: seq<Range>)
    requires ot.Some? ==> Every(ot.value) == Pass
    ensures ot.None? ==> ts == [Range(now, now)]
    ensures ot.Some? ==> |ts| == |ot.value| && forall i :: 0 <= i < |ts| ==> ot.value[i] == Obj(Num(ts[i].start), Num(ts[i].end))
  {
    assert Every([NowRange(now)]) == Pass;
    ToRanges(DefaultTimes(ot, now).value)
  }

  /** The amount range of the balance loop; `None` when `mustOwnAmounts` is falsy,
      in which case reading its `start` throws. */
  function Bounds(m: Option<RangeLike>): (b: Option<Range>)
    requires Truthy(m) ==> CheckOne(m.value) == Pass
    ensures b.Some? <==> Truthy(m)
    ensures b.Some? ==> m.value == Obj(Num(b.value.start), Num(b.value.end)) && b.value.start >= 0 && b.value.end >= 0
  {
    if Truthy(m) then Some(Range(m.value.start.n, m.value.end.n)) else None
  }

  predicate InRange(amount: int, r: Range)
  {
    r.start <= amount <= r.end
  }

  /** The error raised for a balance outside the amount range: the minimum is tested
      first, so a balance below `start` is `Insufficient` even when it is also above `end`. */
  function Violation(address: string, collectionId: string, b: Balance, bounds: Option<Range>): (o: Outcome)
    ensures o != Verified && o != FetchError
    ensures o == Crash <==> bounds.None?
    ensures o.Insufficient? <==> bounds.Some? && b.amount < bounds.value.start
    ensures o.Insufficient? ==> o == Insufficient(address, b.badgeIds, collectionId, bounds.value.start)
    ensures o.Excess? ==> o == Excess(address, b.badgeIds, collectionId, bounds.value.end)
    ensures bounds.Some? && !InRange(b.amount, bounds.value) && b.amount >= bounds.value.start ==>
      o.Excess? && b.amount > o.max
  {
    if bounds.None? then Crash
    else if b.amount < bounds.value.start then Insufficient(address, b.badgeIds, collectionId, bounds.value.start)
    else Excess(address, b.badgeIds, collectionId, bounds.value.end)
  }

  /** The balance loop: every resolved balance in order, stopping at the first one
      outside the inclusive amount range. */
  function FirstViolation(address: string, collectionId: string, balances: seq<Balance>, bounds: Option<Range>): (o: Outcome)
    ensures o == Verified <==> forall i :: 0 <= i < |balances| ==> bounds.Some? && InRange(balances[i].amount, bounds.value)
    ensures o != Verified ==>
      exists i :: 0 <= i < |balances|
        && (forall j :: 0 <= j < i ==> bounds.Some? && InRange(balances[j].amount, bounds.value))
        && !(bounds.Some? && InRange(balances[i].amount, bounds.value))
        && o == Violation(address, collectionId, balances[i], bounds)
  {
    if balances == [] then Verified
    else if bounds.None? || !InRange(balances[0].amount, bounds.value) then
      Violation(address, collectionId, balances[0], bounds)
    else
      var o := FirstViolation(address, collectionId, balances[1..], bounds);
      assert forall i :: 1 <= i < |balances| ==> balances[i] == balances[1..][i - 1];
      o
  }

  /** The resolved balances of an asset that passed its shape checks. */
  /** The resolution is asked for the checked ids and for the ownership times the asset
      holds after line 170, which pass the check too. */
  function Resolved(v: AssetValue, ledger: seq<Balance>, w: World): (bs: seq<Balance>)
    requires Validation(v) == Verified
    ensures Every(WithDefault(v, w.now).ownershipTimes.value) == Pass
    ensures bs == w.resolve(ToRanges(v.assetIds), ToRanges(WithDefault(v, w.now).ownershipTimes.value), ledger)
  {
    w.resolve(ToRanges(v.assetIds), Times(v.ownershipTimes, w.now), ledger)
  }

  /** One iteration of the asset loop: one lookup, at most one validated asset, and an
      asset that verifies was validated. */
  function ProcessOne(address: string, v: AssetValue, snapshot: Option<Snapshot>, w: World): (t: Trace)
    ensures t.lookups == [LookupOf(address, v.collectionId, snapshot, w)]
    ensures t.validated <= 1
    ensures t.outcome == Verified ==> t.validated == 1
  {
    var f := Ledger(address, v.collectionId, snapshot, w);
    var lookups := [LookupOf(address, v.collectionId, snapshot, w)];
    if f.FetchFailed? then Trace(FetchError, lookups, 0)
    else if Validation(v) != Verified then Trace(Validation(v), lookups, 0)
    else
      Trace(FirstViolation(address, v.collectionId, Resolved(v, f.balances, w), Bounds(v.mustOwnAmounts)), lookups, 1)
  }

  /** A trace one asset yields on its own: one lookup, at most one validated asset,
      and an asset that verifies was validated. */
  predicate SingleStep(t: Trace)
  {
    |t.lookups| == 1 && t.validated <= 1 && (t.outcome == Verified ==> t.validated == 1)
  }

  /** `steps` holds, for each asset of `vals`, the trace of that asset taken on its own. */
  predicate StepsOf(address: string, vals: seq<AssetValue>, snapshot: Option<Snapshot>, w: World, steps: seq<Trace>)
  {
    && |steps| == |vals|
    && forall i {:trigger ProcessOne(address, vals[i], snapshot, w)} :: 0 <= i < |vals| ==>
         steps[i] == ProcessOne(address, vals[i], snapshot, w)
  }

  /** The traces of the assets of `vals`, each taken on its own. */
  function Steps(address: string, vals: seq<AssetValue>, snapshot: Option<Snapshot>, w: World): (ts: seq<Trace>)
    ensures StepsOf(address, vals, snapshot, w, ts)
    ensures forall i :: 0 <= i < |ts| ==> SingleStep(ts[i])
  {
    if vals == [] then []
    else
      var rest := Steps(address, vals[1..], snapshot, w);
      var ts := [ProcessOne(address, vals[0], snapshot, w)] + rest;
      assert forall i :: 1 <= i < |vals| ==> ts[i] == rest[i - 1] && vals[i] == vals[1..][i - 1];
      ts
  }

  /** The asset loop over the traces of the assets, in order: it gathers their lookups
      and validated counts and stops at the first trace that does not verify. */
  function Run(steps: seq<Trace>): Trace
  {
    if steps == [] then Trace(Verified, [], 0)
    else if steps[0].outcome != Verified then steps[0]
    else
      var rest := Run(steps[1..]);
      Trace(rest.outcome, steps[0].lookups + rest.lookups, steps[0].validated + rest.validated)
  }

  /** The asset loop: the assets in order, stopping at the first that does not verify. */
  function Process(address: string, vals: seq<AssetValue>, snapshot: Option<Snapshot>, w: World): (t: Trace)
    ensures t.validated <= |t.lookups| <= |vals|
    ensures t.outcome == Verified ==> |t.lookups| == |vals| && t.validated == |vals|
    ensures t.outcome != Verified ==> 0 < |t.lookups| <= t.validated + 1
  {
    var steps := Steps(address, vals, snapshot, w);
    RunBounds(steps);
    Run(steps)
  }

  /** A run over single-asset traces makes one lookup per examined asset and validates
      every examined asset but possibly the last. */
  lemma {:induction false} RunBounds(steps: seq<Trace>)
    requires forall i :: 0 <= i < |steps| ==> SingleStep(steps[i])
    ensures var t := Run(steps);
      && t.validated <= |t.lookups| <= |steps|
      && (t.outcome == Verified ==> |t.lookups| == |steps| && t.validated == |steps|)
      && (t.outcome != Verified ==> 0 < |t.lookups| <= t.validated + 1)
  {
    if steps != [] && steps[0].outcome == Verified {
      assert forall i :: 0 <= i < |steps[1..]| ==> steps[1..][i] == steps[i + 1];
      RunBounds(steps[1..]);
    }
  }

  /** The i-th lookup of a run over single-asset traces is that of its i-th trace. */
  lemma {:induction false} RunLookups(steps: seq<Trace>)
    requires forall i :: 0 <= i < |steps| ==> SingleStep(steps[i])
    ensures var t := Run(steps);
      forall i :: 0 <= i < |t.lookups| ==> i < |steps| && SingleStep(steps[i]) && t.lookups[i] == steps[i].lookups[0]
  {
    if steps != [] && steps[0].outcome == Verified {
      var rest := Run(steps[1..]);
      assert forall i :: 0 <= i < |steps[1..]| ==> steps[1..][i] == steps[i + 1];
      RunLookups(steps[1..]);
      var t := Run(steps);
      assert t.lookups == steps[0].lookups + rest.lookups;
      forall i | 1 <= i < |t.lookups|
        ensures i < |steps| && SingleStep(steps[i]) && t.lookups[i] == steps[i].lookups[0]
      {
        assert t.lookups[i] == rest.lookups[i - 1] && steps[1..][i - 1] == steps[i];
      }
    }
  }

  /** A run succeeds iff each of its traces verifies. */
  lemma {:induction false} RunVerifiedIff(steps: seq<Trace>)
    ensures Run(steps).outcome == Verified <==> forall i :: 0 <= i < |steps| ==> steps[i].outcome == Verified
  {
    if steps != [] && steps[0].outcome == Verified {
      assert forall i :: 0 <= i < |steps[1..]| ==> steps[1..][i] == steps[i + 1];
      RunVerifiedIff(steps[1..]);
    }
  }

  /** A failing run over single-asset traces ends with the trace that failed, and it
      validated every trace before that one. */
  lemma {:induction false} RunFailure(steps: seq<Trace>)
    requires forall i :: 0 <= i < |steps| ==> SingleStep(steps[i])
    requires Run(steps).outcome != Verified
    ensures var t := Run(steps);
      && 0 < |t.lookups| <= |steps|
      && t.outcome == steps[|t.lookups| - 1].outcome
      && t.validated == |t.lookups| - 1 + steps[|t.lookups| - 1].validated
  {
    if steps[0].outcome == Verified {
      var rest := Run(steps[1..]);
      assert forall i :: 0 <= i < |steps[1..]| ==> steps[1..][i] == steps[i + 1];
      RunFailure(steps[1..]);
      assert Run(steps) == Trace(rest.outcome, steps[0].lookups + rest.lookups, steps[0].validated + rest.validated);
    }
  }

  /** Every trace before the last one a failing run examined verified. */
  lemma {:induction false} RunFailurePrefix(steps: seq<Trace>)
    requires forall i :: 0 <= i < |steps| ==> SingleStep(steps[i])
    requires Run(steps).outcome != Verified
    ensures |Run(steps).lookups| <= |steps|
    ensures forall j :: 0 <= j < |Run(steps).lookups| - 1 ==> steps[j].outcome == Verified
  {
    RunBounds(steps);
    if steps[0].outcome == Verified {
      var rest := Run(steps[1..]);
      assert forall i :: 0 <= i < |steps[1..]| ==> steps[1..][i] == steps[i + 1];
      RunFailurePrefix(steps[1..]);
      assert Run(steps).lookups == steps[0].lookups + rest.lookups;
    }
  }

  /** The asset loop looks up one ledger per examined asset, in order. */
  lemma ProcessLookups(address: string, vals: seq<AssetValue>, snapshot: Option<Snapshot>, w: World)
    ensures var t := Process(address, vals, snapshot, w);
      forall i :: 0 <= i < |t.lookups| ==> t.lookups[i] == LookupOf(address, vals[i].collectionId, snapshot, w)
  {
    var steps := Steps(address, vals, snapshot, w);
    RunLookups(steps);
    var t := Process(address, vals, snapshot, w);
    forall i | 0 <= i < |t.lookups|
      ensures t.lookups[i] == LookupOf(address, vals[i].collectionId, snapshot, w)
    {
      assert steps[i] == ProcessOne(address, vals[i], snapshot, w);
    }
  }

  /** The asset loop stops right after the first asset that does not verify, and
      reports that asset's outcome. */
  lemma ProcessStopsAtFailure(address: string, vals: seq<AssetValue>, snapshot: Option<Snapshot>, w: World)
    ensures var t := Process(address, vals, snapshot, w);
      t.outcome != Verified ==> t.outcome == ProcessOne(address, vals[|t.lookups| - 1], snapshot, w).outcome
  {
    var steps := Steps(address, vals, snapshot, w);
    var t := Run(steps);
    if t.outcome != Verified {
      RunFailure(steps);
      assert steps[|t.lookups| - 1] == ProcessOne(address, vals[|t.lookups| - 1], snapshot, w);
    }
  }

  /** A failing run validated every asset before the last one it looked up, and the
      last one exactly when that asset was validated on its own. */
  lemma FailureValidatedCount(address: string, vals: seq<AssetValue>, snapshot: Option<Snapshot>, w: World)
    requires Process(address, vals, snapshot, w).outcome != Verified
    ensures var t := Process(address, vals, snapshot, w);
      var n := |t.lookups|;
      0 < n <= |vals| && t.validated == n - 1 + ProcessOne(address, vals[n - 1], snapshot, w).validated
  {
    var steps := Steps(address, vals, snapshot, w);
    var t := Run(steps);
    assert Process(address, vals, snapshot, w) == t;
    RunFailure(steps);
    var n := |t.lookups|;
    assert steps[n - 1] == ProcessOne(address, vals[n - 1], snapshot, w);
  }

  /** A run over `steps` that has examined the first `k` traces, all verified, and
      gathered the lookups `done` so far ends with `spec` once it has examined the rest. */
  predicate Resumes(steps: seq<Trace>, k: nat, done: seq<Lookup>, spec: Trace)
  {
    k <= |steps| &&
    var t := Run(steps[k..]);
    spec == Trace(t.outcome, done + t.lookups, k + t.validated)
  }

  lemma ResumesAtStart(steps: seq<Trace>)
    ensures Resumes(steps, 0, [], Run(steps))
  {
    assert steps[0..] == steps;
  }

  /** Examining trace `k`: if it verifies (and so was validated) the run resumes after
      it with its lookups appended, otherwise its outcome ends the run. */
  lemma ResumesStep(steps: seq<Trace>, k: nat, done: seq<Lookup>, spec: Trace)
    requires k < |steps| && Resumes(steps, k, done, spec)
    requires steps[k].outcome == Verified ==> steps[k].validated == 1
    ensures steps[k].outcome == Verified ==> Resumes(steps, k + 1, done + steps[k].lookups, spec)
    ensures steps[k].outcome != Verified ==> spec == Trace(steps[k].outcome, done + steps[k].lookups, k + steps[k].validated)
  {
    assert steps[k..][0] == steps[k] && steps[k..][1..] == steps[k + 1..];
    if steps[k].outcome == Verified {
      var rest := Run(steps[k + 1..]);
      assert done + (steps[k].lookups + rest.lookups) == (done + steps[k].lookups) + rest.lookups;
    }
  }

  lemma ResumesAtEnd(steps: seq<Trace>, done: seq<Lookup>, spec: Trace)
    requires Resumes(steps, |steps|, done, spec)
    ensures spec == Trace(Verified, done, |steps|)
  {
    assert steps[|steps|..] == [];
  }

  // ---------------------------------------------------------------------------
  // Properties of the specification

  /** A call succeeds exactly when every examined asset succeeds on its own. */
  lemma VerifiedIffEveryAsset(address: string, vals: seq<AssetValue>, snapshot: Option<Snapshot>, w: World)
    ensures Process(address, vals, snapshot, w).outcome == Verified <==>
      forall i :: 0 <= i < |vals| ==> ProcessOne(address, vals[i], snapshot, w).outcome == Verified
  {
    var steps := Steps(address, vals, snapshot, w);
    RunVerifiedIff(steps);
    assert forall i :: 0 <= i < |vals| ==> steps[i] == ProcessOne(address, vals[i], snapshot, w);
  }

  /** Asset `i` is the first of `vals` that does not verify. */
  predicate FirstFailingAsset(address: string, vals: seq<AssetValue>, snapshot: Option<Snapshot>, w: World, i: int)
  {
    && 0 <= i < |vals|
    && (forall j :: 0 <= j < i ==> ProcessOne(address, vals[j], snapshot, w).outcome == Verified)
    && ProcessOne(address, vals[i], snapshot, w).outcome != Verified
  }

  /** A failing call reports the failure of the first asset that fails, every earlier
      asset was examined and passed, and no later asset was looked up. */
  lemma FirstFailureWins(address: string, vals: seq<AssetValue>, snapshot: Option<Snapshot>, w: World)
    requires Process(address, vals, snapshot, w).outcome != Verified
    ensures exists i :: (
      && FirstFailingAsset(address, vals, snapshot, w, i)
      && Process(address, vals, snapshot, w).outcome == ProcessOne(address, vals[i], snapshot, w).outcome
      && |Process(address, vals, snapshot, w).lookups| == i + 1)
  {
    var steps := Steps(address, vals, snapshot, w);
    RunFailure(steps);
    RunFailurePrefix(steps);
    var i := |Run(steps).lookups| - 1;
    forall j | 0 <= j < i
      ensures ProcessOne(address, vals[j], snapshot, w).outcome == Verified
    {
      assert steps[j] == ProcessOne(address, vals[j], snapshot, w);
    }
    assert steps[i] == ProcessOne(address, vals[i], snapshot, w);
    assert FirstFailingAsset(address, vals, snapshot, w, i);
  }

  /** Success means that, for every examined asset, its ledger was obtained, it passed
      the shape checks, and every one of its resolved balances lies within its
      inclusive amount range. */
  lemma SuccessMeansEveryBalanceInRange(address: string, vals: seq<AssetValue>, snapshot: Option<Snapshot>, w: World, i: nat)
    requires Process(address, vals, snapshot, w).outcome == Verified
    requires i < |vals|
    ensures Ledger(address, vals[i].collectionId, snapshot, w).Fetched?
    ensures Validation(vals[i]) == Verified
    ensures var bs := Resolved(vals[i], Ledger(address, vals[i].collectionId, snapshot, w).balances, w);
      forall k :: 0 <= k < |bs| ==>
        Bounds(vals[i].mustOwnAmounts).Some? && InRange(bs[k].amount, Bounds(vals[i].mustOwnAmounts).value)
  {
    VerifiedIffEveryAsset(address, vals, snapshot, w);
    assert ProcessOne(address, vals[i], snapshot, w).outcome == Verified;
  }

  /** With a snapshot the ledger comes from memory, so no call ends in a rejected request. */
  lemma SnapshotNeverFetchError(address: string, vals: seq<AssetValue>, m: Snapshot, w: World)
    ensures Process(address, vals, Some(m), w).outcome != FetchError
    ensures forall i :: 0 <= i < |Process(address, vals, Some(m), w).lookups| ==>
      Process(address, vals, Some(m), w).lookups[i] == FromSnapshot(w.toCosmos(address))
  {
    ProcessLookups(address, vals, Some(m), w);
    var t := Process(address, vals, Some(m), w);
    if t.outcome != Verified {
      ProcessStopsAtFailure(address, vals, Some(m), w);
      ProcessOneCases(address, vals[|t.lookups| - 1], Some(m), w);
    }
  }

  /** The shape checks come after the ledger lookup: when the request is rejected the
      call fails with `FetchError` however malformed the asset is, and the lookup was made. */
  lemma LookupBeforeValidation(address: string, v: AssetValue, w: World)
    requires w.fetch(v.collectionId, w.toCosmos(address)) == FetchFailed
    ensures ProcessOne(address, v, None, w) == Trace(FetchError, [Remote(v.collectionId, w.toCosmos(address))], 0)
  {
  }

  /** The cases of one asset: a rejected request fails first, and only then are the
      shape checks run; an asset is validated exactly when its ledger was obtained and
      it passed them, and its outcome is then that of the balance loop over its resolved
      balances. */
  lemma ProcessOneCases(address: string, v: AssetValue, snapshot: Option<Snapshot>, w: World)
    ensures var t := ProcessOne(address, v, snapshot, w);
      var f := Ledger(address, v.collectionId, snapshot, w);
      && (t.outcome == FetchError <==> f.FetchFailed?)
      && (t.validated == 1 <==> f.Fetched? && Validation(v) == Verified)
      && (f.Fetched? && Validation(v) != Verified ==> t.outcome == Validation(v))
      && (t.validated == 1 ==>
            t.outcome == FirstViolation(address, v.collectionId, Resolved(v, f.balances, w), Bounds(v.mustOwnAmounts)))
  {
  }

  /** Writing the default time into an asset does not change what the asset loop does
      with it: the default `[now, now]` passes the ownership-time check and is the time
      set used when the times were absent. So, given the same ledger, an asset visited
      a second time behaves as it did the first time. */
  lemma DefaultPreservesStep(address: string, v: AssetValue, snapshot: Option<Snapshot>, w: World)
    ensures ProcessOne(address, WithDefault(v, w.now), snapshot, w) == ProcessOne(address, v, snapshot, w)
  {
    var d := WithDefault(v, w.now);
    assert Every([NowRange(w.now)]) == Pass;
    assert Validation(d) == Validation(v);
    if Validation(v) == Verified {
      assert Times(d.ownershipTimes, w.now) == Times(v.ownershipTimes, w.now);
    }
  }

  /** Applying the default twice is the same as applying it once. */
  lemma DefaultIdempotent(ot: Option<seq<RangeLike>>, now: nat)
    ensures DefaultTimes(DefaultTimes(ot, now), now) == DefaultTimes(ot, now)
    ensures DefaultTimes(ot, now).Some?
    ensures ot.Some? ==> DefaultTimes(ot, now) == ot
  {
  }

  /** One balance against one range: inside it (both ends inclusive) it passes; below the
      minimum it is `Insufficient` even when the range is inverted; otherwise `Excess`. */
  lemma SingleBalanceVerdict(address: string, collectionId: string, b: Balance, rest: seq<Balance>, r: Range)
    ensures r.start <= b.amount <= r.end ==>
      FirstViolation(address, collectionId, [b] + rest, Some(r)) == FirstViolation(address, collectionId, rest, Some(r))
    ensures b.amount < r.start ==>
      FirstViolation(address, collectionId, [b] + rest, Some(r)) == Insufficient(address, b.badgeIds, collectionId, r.start)
    ensures r.start <= b.amount && b.amount > r.end ==>
      FirstViolation(address, collectionId, [b] + rest, Some(r)) == Excess(address, b.badgeIds, collectionId, r.end)
  {
    assert ([b] + rest)[1..] == rest;
  }

  /** An inverted amount range (`start > end`) is accepted by the shape check but no
      amount lies within it, so any resolved balance makes the call fail. */
  lemma InvertedRangeRejectsAnyBalance(address: string, collectionId: string, balances: seq<Balance>, r: Range)
    requires r.start > r.end
    requires |balances| > 0
    ensures FirstViolation(address, collectionId, balances, Some(r)) != Verified
    ensures CheckOne(Obj(Num(r.start), Num(r.end))) == Pass <==> r.end >= 0
  {
    assert !InRange(balances[0].amount, r);
  }

  /** Without a (truthy) `mustOwnAmounts` every resolved balance reads an absent field,
      so the first one throws; with no resolved balances the loop does not run. */
  lemma MissingAmountsCrashOnFirstBalance(address: string, collectionId: string, balances: seq<Balance>)
    ensures FirstViolation(address, collectionId, balances, None) == if balances == [] then Verified else Crash
  {
  }

  /** A range `5..5` accepts the amount 5 and nothing else. */
  lemma InclusiveBoundary(address: string, collectionId: string, b: Balance)
    ensures FirstViolation(address, collectionId, [b], Some(Range(5, 5))) == Verified <==> b.amount == 5
  {
  }
}
