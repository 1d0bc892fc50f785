/**
 * `parseUserAssets` (src/core/resources/assets/common.ts): turns the asset
 * API's list of (quantity, asset) entries into a dictionary
 * chainId -> uniqueId -> parsed asset, and in local "hardhat" mode refreshes
 * one chain's balances through a provider.
 *
 * The inner dictionaries are JavaScript objects keyed by `uniqueId`; every
 * value stored in them is stored under its own `uniqueId`, so a bucket is
 * modelled as the sequence of its values in property order, with distinct
 * `uniqueId`s.
 */
module UserAssets {
  import opened Wrappers

  type ChainId = int
  type UniqueId = string
  type Address = string
  type Currency = string

  /** EIP-155 chain ids of the three chains a hardhat node can stand in for. */
  const MAINNET: ChainId := 1
  const OPTIMISM: ChainId := 10
  const POLYGON: ChainId := 137

  /** The parts of a parsed user asset the routine looks at. */
  datatype UserAsset = UserAsset(uniqueId: UniqueId, chainId: ChainId, balance: string)

  /** The asset record of the API (its fields are read only by `parseUserAsset`). */
  datatype AssetApiResponse = AssetApiResponse(assetCode: string, chainId: ChainId, symbol: string)

  /** One element of the API list: `{ quantity, small_balance?, asset }`. */
  datatype ApiEntry = ApiEntry(quantity: string, smallBalance: Option<bool>, asset: AssetApiResponse)

  /** A provider balance lookup either resolves with an updated asset or rejects. */
  datatype FetchResult = Fetched(asset: UserAsset) | FetchFailed

  /** The local chains a provider can be opened for. */
  datatype HardhatChain = Hardhat | HardhatOptimism | HardhatPolygon

  /** The functions the routine calls, whose code lies outside this model. */
  datatype Services = Services(
    parseUserAsset: (ApiEntry, Currency) -> UserAsset,
    isPositive: string -> bool,
    fetchBalance: (HardhatChain, UserAsset, Address, Currency) -> FetchResult)

  /** The three flags of the connected-to-hardhat store and the `IS_TESTING` environment switch. */
  datatype HardhatSettings = HardhatSettings(
    connectedToHardhat: bool,
    connectedToHardhatOp: bool,
    connectedToHardhatPolygon: bool,
    isTesting: bool)

  /** The fixed assets injected in hardhat mode. */
  datatype Fixtures = Fixtures(
    ethMainnet: UserAsset,
    optimismMainnet: UserAsset,
    polygonMainnet: UserAsset,
    usdcMainnet: UserAsset,
    daiMainnet: UserAsset)

  /** Indexing a chain that has no bucket throws a TypeError. */
  datatype Error = MissingChainBucket(chainId: ChainId)

  type Bucket = seq<UserAsset>
  type Dict = map<ChainId, Bucket>

  // ---------------------------------------------------------------------------
  // A bucket: a JavaScript object from uniqueId to asset

  /** A JavaScript object holds each key once. */
  predicate DistinctKeys(b: Bucket) {
    forall i, j :: 0 <= i < j < |b| ==> b[i].uniqueId != b[j].uniqueId
  }

  /** The position of key `k` in the bucket, or -1. */
  function KeyIndex(b: Bucket, k: UniqueId): (i: int)
    ensures -1 <= i < |b|
    ensures i >= 0 ==> b[i].uniqueId == k && forall j :: 0 <= j < i ==> b[j].uniqueId != k
    ensures i == -1 ==> forall j :: 0 <= j < |b| ==> b[j].uniqueId != k
  {
    if b == [] then -1
    else if b[0].uniqueId == k then 0
    else
      var i := KeyIndex(b[1..], k);
      if i < 0 then -1 else i + 1
  }

  /** `bucket[k]`: the asset stored under `k`, if any. */
  function Lookup(b: Bucket, k: UniqueId): Option<UserAsset> {
    var i := KeyIndex(b, k);
    if i < 0 then None else Some(b[i])
  }

  /** The characterisation in KeyIndex's contract determines its result. */
  lemma KeyIndexIs(b: Bucket, k: UniqueId, i: int)
    requires -1 <= i < |b|
    requires i >= 0 ==> b[i].uniqueId == k && forall j :: 0 <= j < i ==> b[j].uniqueId != k
    requires i == -1 ==> forall j :: 0 <= j < |b| ==> b[j].uniqueId != k
    ensures KeyIndex(b, k) == i
  {
  }

  /** Writing a new key: it goes last, and the other keys are found where they were. */
  lemma AppendLookup(b: Bucket, a: UserAsset, k: UniqueId)
    requires KeyIndex(b, a.uniqueId) < 0
    ensures Lookup(b + [a], k) == if k == a.uniqueId then Some(a) else Lookup(b, k)
  {
    KeyIndexIs(b + [a], k, if k == a.uniqueId then |b| else KeyIndex(b, k));
  }

  /** Writing an existing key: its value changes in place, and the other keys are found where they were. */
  lemma ReplaceLookup(b: Bucket, a: UserAsset, k: UniqueId)
    requires KeyIndex(b, a.uniqueId) >= 0
    ensures Lookup(b[KeyIndex(b, a.uniqueId) := a], k) == if k == a.uniqueId then Some(a) else Lookup(b, k)
  {
    var i := KeyIndex(b, a.uniqueId);
    KeyIndexIs(b[i := a], k, if k == a.uniqueId then i else KeyIndex(b, k));
  }

  /**
   * `bucket[a.uniqueId] = a`: the key now maps to `a`, every other key keeps
   * its value, no other value enters the bucket, and keys stay distinct.
   * An existing key keeps its position; a new key goes last.
   */
  function Put(b: Bucket, a: UserAsset): (r: Bucket)
    ensures Lookup(r, a.uniqueId) == Some(a)
    ensures forall k :: k != a.uniqueId ==> Lookup(r, k) == Lookup(b, k)
    ensures forall x :: x in r ==> x in b || x == a
    ensures DistinctKeys(b) ==> DistinctKeys(r)
  {
    var i := KeyIndex(b, a.uniqueId);
    if i < 0 then
      forall k ensures Lookup(b + [a], k) == if k == a.uniqueId then Some(a) else Lookup(b, k) {
        AppendLookup(b, a, k);
      }
      AppendLookup(b, a, a.uniqueId);
      b + [a]
    else
      forall k ensures Lookup(b[i := a], k) == if k == a.uniqueId then Some(a) else Lookup(b, k) {
        ReplaceLookup(b, a, k);
      }
      ReplaceLookup(b, a, a.uniqueId);
      b[i := a]
  }

  // ---------------------------------------------------------------------------
  // Lines 60-63: one empty bucket per requested chain

  /** `chainIds.reduce((dict, c) => ({ ...dict, [c]: {} }), {})` */
  function Seed(chainIds: seq<ChainId>): (d: Dict)
    ensures forall c :: c in d <==> c in chainIds
    ensures forall c :: c in d ==> d[c] == []
  {
    if chainIds == [] then map[]
    else Seed(chainIds[..|chainIds| - 1])[chainIds[|chainIds| - 1] := []]
  }

  // ---------------------------------------------------------------------------
  // Lines 64-75: the filtering loop

  /** The entry passes the quantity filter and parses to an asset of chain `c` with key `k`. */
  predicate Matches(sv: Services, currency: Currency, e: ApiEntry, c: ChainId, k: UniqueId) {
    sv.isPositive(e.quantity)
    && sv.parseUserAsset(e, currency).chainId == c
    && sv.parseUserAsset(e, currency).uniqueId == k
  }

  /** A positive entry whose chain has no bucket in `d`: writing it throws. */
  predicate Unbucketed(sv: Services, currency: Currency, d: Dict, e: ApiEntry) {
    sv.isPositive(e.quantity) && sv.parseUserAsset(e, currency).chainId !in d
  }

  /** The loop over `es`, starting from dictionary `d`. */
  function InsertAll(d: Dict, es: seq<ApiEntry>, sv: Services, currency: Currency): (r: Result<Dict, Error>)
    ensures r.Failure? ==> r.error.chainId !in d
    ensures r.Success? ==> r.value.Keys == d.Keys
    decreases |es|
  {
    if es == [] then Success(d)
    else
      var e := es[0];
      if !sv.isPositive(e.quantity) then InsertAll(d, es[1..], sv, currency)
      else
        var a := sv.parseUserAsset(e, currency);
        if a.chainId !in d then Failure(MissingChainBucket(a.chainId))
        else InsertAll(d[a.chainId := Put(d[a.chainId], a)], es[1..], sv, currency)
  }

  /**
   * The loop throws exactly when some positive entry names a chain with no
   * bucket; when it succeeds, the set of chains is unchanged.
   */
  lemma {:induction false} InsertAllFailsIffUnbucketed(d: Dict, es: seq<ApiEntry>, sv: Services, currency: Currency)
    ensures InsertAll(d, es, sv, currency).Failure? <==>
            exists i :: 0 <= i < |es| && Unbucketed(sv, currency, d, es[i])
    ensures InsertAll(d, es, sv, currency).Success? ==> InsertAll(d, es, sv, currency).value.Keys == d.Keys
    decreases |es|
  {
    if es != [] {
      var e := es[0];
      var d' := if sv.isPositive(e.quantity) && sv.parseUserAsset(e, currency).chainId in d
        then d[sv.parseUserAsset(e, currency).chainId := Put(d[sv.parseUserAsset(e, currency).chainId], sv.parseUserAsset(e, currency))]
        else d;
      assert d'.Keys == d.Keys;
      InsertAllFailsIffUnbucketed(d', es[1..], sv, currency);
      forall i | 0 <= i < |es| - 1
        ensures Unbucketed(sv, currency, d, es[i + 1]) <==> Unbucketed(sv, currency, d', es[1..][i])
      {
      }
      if exists i :: 0 <= i < |es| && Unbucketed(sv, currency, d, es[i]) {
        var i :| 0 <= i < |es| && Unbucketed(sv, currency, d, es[i]);
        if i > 0 { assert Unbucketed(sv, currency, d', es[1..][i - 1]); }
      }
      if exists i :: 0 <= i < |es[1..]| && Unbucketed(sv, currency, d', es[1..][i]) {
        var i :| 0 <= i < |es[1..]| && Unbucketed(sv, currency, d', es[1..][i]);
        assert Unbucketed(sv, currency, d, es[i + 1]);
      }
    }
  }

  /**
   * Later entries overwrite earlier ones: when the loop succeeds, the asset
   * stored under chain `c` and key `k` is the parse of the LAST positive entry
   * with that chain and key.
   */
  lemma {:induction false} InsertAllLastEntryWins(
    d: Dict, es: seq<ApiEntry>, sv: Services, currency: Currency, c: ChainId, k: UniqueId, i: int)
    requires InsertAll(d, es, sv, currency).Success? && c in d
    requires 0 <= i < |es| && Matches(sv, currency, es[i], c, k)
    requires forall j :: i < j < |es| ==> !Matches(sv, currency, es[j], c, k)
    ensures c in InsertAll(d, es, sv, currency).value
    ensures Lookup(InsertAll(d, es, sv, currency).value[c], k) == Some(sv.parseUserAsset(es[i], currency))
    decreases |es|
  {
    InsertAllFailsIffUnbucketed(d, es, sv, currency);
    var e := es[0];
    var a := sv.parseUserAsset(e, currency);
    var d' := if sv.isPositive(e.quantity) then d[a.chainId := Put(d[a.chainId], a)] else d;
    assert InsertAll(d, es, sv, currency) == InsertAll(d', es[1..], sv, currency);
    if i == 0 {
      assert Lookup(d'[c], k) == Some(a);
      forall j | 0 <= j < |es[1..]| ensures !Matches(sv, currency, es[1..][j], c, k) {
        assert es[1..][j] == es[j + 1];
      }
      InsertAllKeepsUnmatched(d', es[1..], sv, currency, c, k);
    } else {
      InsertAllLastEntryWins(d', es[1..], sv, currency, c, k, i - 1);
    }
  }

  /** A key that no positive entry writes keeps what the bucket held before the loop. */
  lemma {:induction false} InsertAllKeepsUnmatched(
    d: Dict, es: seq<ApiEntry>, sv: Services, currency: Currency, c: ChainId, k: UniqueId)
    requires InsertAll(d, es, sv, currency).Success? && c in d
    requires forall j :: 0 <= j < |es| ==> !Matches(sv, currency, es[j], c, k)
    ensures c in InsertAll(d, es, sv, currency).value
    ensures Lookup(InsertAll(d, es, sv, currency).value[c], k) == Lookup(d[c], k)
    decreases |es|
  {
    InsertAllFailsIffUnbucketed(d, es, sv, currency);
    if es != [] {
      var e := es[0];
      var a := sv.parseUserAsset(e, currency);
      var d' := if sv.isPositive(e.quantity) then d[a.chainId := Put(d[a.chainId], a)] else d;
      assert InsertAll(d, es, sv, currency) == InsertAll(d', es[1..], sv, currency);
      assert !Matches(sv, currency, es[0], c, k);
      assert Lookup(d'[c], k) == Lookup(d[c], k);
      forall j | 0 <= j < |es[1..]| ensures !Matches(sv, currency, es[1..][j], c, k) {
        assert es[1..][j] == es[j + 1];
      }
      InsertAllKeepsUnmatched(d', es[1..], sv, currency, c, k);
    }
  }

  /**
   * Only positive entries are stored, each in the bucket of its own chain:
   * every asset in the loop's result was already in `d` or is the parse of an
   * entry whose quantity passed the filter, and it sits in bucket `a.chainId`.
   */
  lemma {:induction false} InsertAllStoresOnlyPositive(
    d: Dict, es: seq<ApiEntry>, sv: Services, currency: Currency, c: ChainId, a: UserAsset)
    requires InsertAll(d, es, sv, currency).Success?
    requires forall c', x :: c' in d && x in d[c'] ==> x.chainId == c'
    requires c in InsertAll(d, es, sv, currency).value && a in InsertAll(d, es, sv, currency).value[c]
    ensures a.chainId == c
    ensures (c in d && a in d[c]) ||
      exists i :: 0 <= i < |es| && sv.isPositive(es[i].quantity) && sv.parseUserAsset(es[i], currency) == a
    decreases |es|
  {
    if es != [] {
      var e := es[0];
      var a0 := sv.parseUserAsset(e, currency);
      var d' := if sv.isPositive(e.quantity) then d[a0.chainId := Put(d[a0.chainId], a0)] else d;
      assert InsertAll(d, es, sv, currency) == InsertAll(d', es[1..], sv, currency);
      InsertAllFailsIffUnbucketed(d', es[1..], sv, currency);
      InsertAllStoresOnlyPositive(d', es[1..], sv, currency, c, a);
      if a !in d'[c] {
        var i :| 0 <= i < |es[1..]| && sv.isPositive(es[1..][i].quantity) && sv.parseUserAsset(es[1..][i], currency) == a;
        assert es[1..][i] == es[i + 1];
      } else if a !in d[c] {
        assert sv.isPositive(es[0].quantity) && a == a0;
      }
    }
  }

  // ---------------------------------------------------------------------------
  // Lines 76-99: hardhat mode and its chain

  /** What hardhat mode selects: the provider's local chain, the chain it stands in for, and that chain's native asset. */
  datatype HardhatSelection = HardhatSelection(provider: HardhatChain, chain: ChainId, native: UserAsset)

  predicate HardhatMode(s: HardhatSettings) {
    s.connectedToHardhat || s.connectedToHardhatOp || s.connectedToHardhatPolygon
  }

  /** The three nested ternaries of lines 83-99, each evaluated on its own. */
  function Selection(s: HardhatSettings, fx: Fixtures): (r: Option<HardhatSelection>)
    ensures r.Some? ==> r.value.chain in {MAINNET, OPTIMISM, POLYGON}
    ensures r.Some? ==> r.value.native in {fx.ethMainnet, fx.optimismMainnet, fx.polygonMainnet}
  {
    if !HardhatMode(s) then None
    else
      var selectedHardhatChainId :=
        if s.connectedToHardhat then Hardhat
        else if s.connectedToHardhatOp then HardhatOptimism
        else HardhatPolygon;
      var hardhatChainId :=
        if s.connectedToHardhat then MAINNET
        else if s.connectedToHardhatOp then OPTIMISM
        else POLYGON;
      var hardhatAsset :=
        if s.connectedToHardhat then fx.ethMainnet
        else if s.connectedToHardhatOp then fx.optimismMainnet
        else fx.polygonMainnet;
      Some(HardhatSelection(selectedHardhatChainId, hardhatChainId, hardhatAsset))
  }

  /**
   * The flags are read in the priority connectedToHardhat > connectedToHardhatOp
   * > connectedToHardhatPolygon, and the provider, the mapped chain and the
   * native asset always come from the same flag.
   */
  lemma HardhatSelectionPriority(s: HardhatSettings, fx: Fixtures)
    ensures Selection(s, fx).None? <==> !HardhatMode(s)
    ensures s.connectedToHardhat ==>
      Selection(s, fx) == Some(HardhatSelection(Hardhat, MAINNET, fx.ethMainnet))
    ensures !s.connectedToHardhat && s.connectedToHardhatOp ==>
      Selection(s, fx) == Some(HardhatSelection(HardhatOptimism, OPTIMISM, fx.optimismMainnet))
    ensures !s.connectedToHardhat && !s.connectedToHardhatOp && s.connectedToHardhatPolygon ==>
      Selection(s, fx) == Some(HardhatSelection(HardhatPolygon, POLYGON, fx.polygonMainnet))
  {
  }

  /** Lines 104-108: the native asset, and under IS_TESTING the USDC and DAI fixtures, written into the bucket. */
  function WithFixtures(b: Bucket, native: UserAsset, s: HardhatSettings, fx: Fixtures): (r: Bucket)
    ensures Lookup(r, native.uniqueId).Some?
    ensures !s.isTesting ==> Lookup(r, native.uniqueId) == Some(native)
    ensures s.isTesting && native.uniqueId != fx.usdcMainnet.uniqueId && native.uniqueId != fx.daiMainnet.uniqueId ==>
      Lookup(r, native.uniqueId) == Some(native)
    ensures s.isTesting && fx.usdcMainnet.uniqueId != fx.daiMainnet.uniqueId ==>
      Lookup(r, fx.usdcMainnet.uniqueId) == Some(fx.usdcMainnet)
    ensures s.isTesting ==> Lookup(r, fx.daiMainnet.uniqueId) == Some(fx.daiMainnet)
    ensures forall k :: k != native.uniqueId && (!s.isTesting || (k != fx.usdcMainnet.uniqueId && k != fx.daiMainnet.uniqueId)) ==>
      Lookup(r, k) == Lookup(b, k)
    ensures DistinctKeys(b) ==> DistinctKeys(r)
  {
    var withNative := Put(b, native);
    if s.isTesting then Put(Put(withNative, fx.usdcMainnet), fx.daiMainnet) else withNative
  }

  // ---------------------------------------------------------------------------
  // Lines 110-134: the balance refresh and the rebuilt bucket

  /** One balance request: assets of other chains pass through, a rejected fetch keeps the asset. */
  function RefreshOne(a: UserAsset, sel: HardhatSelection, sv: Services, address: Address, currency: Currency): (r: UserAsset)
    ensures a.chainId != sel.chain || sv.fetchBalance(sel.provider, a, address, currency) == FetchFailed ==> r == a
    ensures r == a || sv.fetchBalance(sel.provider, a, address, currency) == Fetched(r)
    ensures a.chainId == sel.chain && sv.fetchBalance(sel.provider, a, address, currency).Fetched? ==>
      r == sv.fetchBalance(sel.provider, a, address, currency).asset
  {
    if a.chainId != sel.chain then a
    else
      match sv.fetchBalance(sel.provider, a, address, currency)
      case Fetched(updated) => updated
      case FetchFailed => a
  }

  /** `Object.values(assets).map(...)` awaited with `Promise.all`, in list order. */
  function RefreshAll(b: Bucket, sel: HardhatSelection, sv: Services, address: Address, currency: Currency): (r: seq<UserAsset>)
    ensures |r| == |b|
  {
    if b == [] then [] else [RefreshOne(b[0], sel, sv, address, currency)] + RefreshAll(b[1..], sel, sv, address, currency)
  }

  /** Each result sits at its asset's position; results for other chains are the asset itself. */
  lemma {:induction false} RefreshAllAt(b: Bucket, sel: HardhatSelection, sv: Services, address: Address, currency: Currency, i: int)
    requires 0 <= i < |b|
    ensures RefreshAll(b, sel, sv, address, currency)[i] == RefreshOne(b[i], sel, sv, address, currency)
    ensures b[i].chainId != sel.chain ==> RefreshAll(b, sel, sv, address, currency)[i] == b[i]
    ensures sv.fetchBalance(sel.provider, b[i], address, currency) == FetchFailed ==>
      RefreshAll(b, sel, sv, address, currency)[i] == b[i]
    ensures b[i].chainId == sel.chain && sv.fetchBalance(sel.provider, b[i], address, currency).Fetched? ==>
      RefreshAll(b, sel, sv, address, currency)[i] == sv.fetchBalance(sel.provider, b[i], address, currency).asset
  {
    if i > 0 {
      RefreshAllAt(b[1..], sel, sv, address, currency, i - 1);
    }
  }

  /** The `reduce` of lines 127-132: every result written into a fresh object under its own uniqueId. */
  function IndexByUniqueId(xs: seq<UserAsset>): (r: Bucket)
    ensures DistinctKeys(r)
  {
    if xs == [] then [] else Put(IndexByUniqueId(xs[..|xs| - 1]), xs[|xs| - 1])
  }

  /**
   * The rebuilt bucket holds key `k` exactly when some result has that
   * uniqueId, and then holds the LAST such result.
   */
  lemma {:induction false} IndexByUniqueIdLastWins(xs: seq<UserAsset>, k: UniqueId)
    ensures Lookup(IndexByUniqueId(xs), k).Some? <==> exists i :: 0 <= i < |xs| && xs[i].uniqueId == k
    ensures forall i :: 0 <= i < |xs| && xs[i].uniqueId == k && (forall j :: i < j < |xs| ==> xs[j].uniqueId != k) ==>
      Lookup(IndexByUniqueId(xs), k) == Some(xs[i])
    decreases |xs|
  {
    if xs != [] {
      var init := xs[..|xs| - 1];
      IndexByUniqueIdLastWins(init, k);
      var last := xs[|xs| - 1];
      if last.uniqueId != k {
        forall i | 0 <= i < |init| ensures init[i] == xs[i] { }
        if exists i :: 0 <= i < |xs| && xs[i].uniqueId == k {
          var i :| 0 <= i < |xs| && xs[i].uniqueId == k;
          assert init[i].uniqueId == k;
        }
      }
    }
  }

  // ---------------------------------------------------------------------------
  // The whole routine

  /** What `parseUserAssets` resolves with, or the error it rejects with. */
  function UserAssetsOf(
    address: Address, assets: seq<ApiEntry>, chainIds: seq<ChainId>, currency: Currency,
    sv: Services, s: HardhatSettings, fx: Fixtures): (r: Result<Dict, Error>)
    ensures !HardhatMode(s) ==> r == InsertAll(Seed(chainIds), assets, sv, currency)
    ensures r.Success? ==> InsertAll(Seed(chainIds), assets, sv, currency).Success?
    ensures r.Success? ==> r.value.Keys == InsertAll(Seed(chainIds), assets, sv, currency).value.Keys
  {
    match InsertAll(Seed(chainIds), assets, sv, currency)
    case Failure(e) => Failure(e)
    case Success(d) =>
      match Selection(s, fx)
      case None => Success(d)
      case Some(sel) =>
        if sel.chain !in d then Failure(MissingChainBucket(sel.chain))
        else Success(d[sel.chain := IndexByUniqueId(RefreshAll(WithFixtures(d[sel.chain], sel.native, s, fx), sel, sv, address, currency))])
  }

  /**
   * In hardhat mode the result differs from the loop's only in the mapped
   * chain's bucket, which is the refreshed bucket re-keyed by uniqueId; a
   * missing mapped bucket makes the routine throw.
   */
  lemma HardhatTouchesOnlyMappedChain(
    address: Address, assets: seq<ApiEntry>, chainIds: seq<ChainId>, currency: Currency,
    sv: Services, s: HardhatSettings, fx: Fixtures)
    requires HardhatMode(s) && InsertAll(Seed(chainIds), assets, sv, currency).Success?
    ensures var d := InsertAll(Seed(chainIds), assets, sv, currency).value;
      var sel := Selection(s, fx).value;
      var r := UserAssetsOf(address, assets, chainIds, currency, sv, s, fx);
      && (sel.chain !in chainIds <==> r == Failure(MissingChainBucket(sel.chain)))
      && (r.Success? ==>
        && (forall c :: c in d && c != sel.chain ==> r.value[c] == d[c])
        && r.value[sel.chain] == IndexByUniqueId(RefreshAll(WithFixtures(d[sel.chain], sel.native, s, fx), sel, sv, address, currency)))
  {
    InsertAllFailsIffUnbucketed(Seed(chainIds), assets, sv, currency);
  }

  /** The provider's lookup only updates the balance: it keeps the asset's uniqueId. */
  ghost predicate FetchKeepsUniqueId(sv: Services, address: Address, currency: Currency) {
    forall p, a :: sv.fetchBalance(p, a, address, currency).Fetched? ==>
      sv.fetchBalance(p, a, address, currency).asset.uniqueId == a.uniqueId
  }

  /**
   * In hardhat mode the native asset's key is present in the mapped chain's
   * bucket of the result, provided the balance lookup keeps uniqueIds.
   */
  lemma {:induction false} HardhatNativeAssetPresent(
    address: Address, assets: seq<ApiEntry>, chainIds: seq<ChainId>, currency: Currency,
    sv: Services, s: HardhatSettings, fx: Fixtures)
    requires HardhatMode(s) && FetchKeepsUniqueId(sv, address, currency)
    requires UserAssetsOf(address, assets, chainIds, currency, sv, s, fx).Success?
    ensures var sel := Selection(s, fx).value;
      var r := UserAssetsOf(address, assets, chainIds, currency, sv, s, fx).value;
      sel.chain in r && Lookup(r[sel.chain], sel.native.uniqueId).Some?
  {
    var d := InsertAll(Seed(chainIds), assets, sv, currency).value;
    var sel := Selection(s, fx).value;
    var b := WithFixtures(d[sel.chain], sel.native, s, fx);
    var i := KeyIndex(b, sel.native.uniqueId);
    var results := RefreshAll(b, sel, sv, address, currency);
    RefreshAllAt(b, sel, sv, address, currency, i);
    assert results[i].uniqueId == sel.native.uniqueId;
    IndexByUniqueIdLastWins(results, sel.native.uniqueId);
  }

  /** Lines 64-75: the `for` loop writing each positive entry into the dictionary, throwing on a missing bucket. */
  method InsertEntries(dict: Dict, assets: seq<ApiEntry>, sv: Services, currency: Currency) returns (r: Result<Dict, Error>)
    ensures r == InsertAll(dict, assets, sv, currency)
  {
    var parsedAssetsDict := dict;
    var i := 0;
    while i < |assets|
      invariant 0 <= i <= |assets|
      invariant InsertAll(dict, assets, sv, currency) == InsertAll(parsedAssetsDict, assets[i..], sv, currency)
    {
      var entry := assets[i];
      assert assets[i..][0] == entry && assets[i..][1..] == assets[i + 1..];
      if sv.isPositive(entry.quantity) {
        var parsedAsset := sv.parseUserAsset(entry, currency);
        if parsedAsset.chainId !in parsedAssetsDict {
          return Failure(MissingChainBucket(parsedAsset.chainId));
        }
        parsedAssetsDict := parsedAssetsDict[parsedAsset.chainId := Put(parsedAssetsDict[parsedAsset.chainId], parsedAsset)];
      }
      i := i + 1;
    }
    assert assets[i..] == [];
    return Success(parsedAssetsDict);
  }

  /** Lines 127-132: the `reduce` whose accumulator object receives each result under its uniqueId. */
  method IndexResults(results: seq<UserAsset>) returns (acc: Bucket)
    ensures acc == IndexByUniqueId(results)
  {
    acc := [];
    var j := 0;
    while j < |results|
      invariant 0 <= j <= |results|
      invariant acc == IndexByUniqueId(results[..j])
    {
      assert results[..j + 1][..j] == results[..j];
      acc := Put(acc, results[j]);
      j := j + 1;
    }
    assert results[..j] == results;
  }

  /**
   * The routine as written: the loop over the seeded dictionary, then in
   * hardhat mode the injected assets, the refresh in list order and the
   * rebuilt bucket.
   */
  method ParseUserAssets(
    address: Address, assets: seq<ApiEntry>, chainIds: seq<ChainId>, currency: Currency,
    sv: Services, s: HardhatSettings, fx: Fixtures) returns (r: Result<Dict, Error>)
    ensures r == UserAssetsOf(address, assets, chainIds, currency, sv, s, fx)
  {
    var inserted := InsertEntries(Seed(chainIds), assets, sv, currency);
    if inserted.Failure? {
      return inserted;
    }
    var parsedAssetsDict := inserted.value;
    ghost var looped := parsedAssetsDict;
    var selection := Selection(s, fx);
    if selection.Some? {
      var sel := selection.value;
      if sel.chain !in parsedAssetsDict {
        return Failure(MissingChainBucket(sel.chain));
      }
      // The bucket is aliased, not copied: the writes of lines 104-108 land in the dictionary.
      var bucket := WithFixtures(parsedAssetsDict[sel.chain], sel.native, s, fx);
      parsedAssetsDict := parsedAssetsDict[sel.chain := bucket];
      var results := RefreshAll(bucket, sel, sv, address, currency);
      var newAssets := IndexResults(results);
      parsedAssetsDict := parsedAssetsDict[sel.chain := newAssets];
      assert parsedAssetsDict == looped[sel.chain := newAssets];
    }
    return Success(parsedAssetsDict);
  }
}
