/**
 * The oracle's storage and query engine: typed accessors over the contract's
 * key-value storage, the admin check, the backward-stepping history scan and
 * the cross-price derivation.
 *
 * Storage is a map from DataKey to Value. Read-only operations are functions
 * (or, for the scan, a method) over a snapshot of that map; the setters are
 * methods of the class Env, which owns the map and updates it in place.
 */
module EnvExtensions {
  import opened Common
  import opened OracleTypes

  /** Why a call stops without returning: a contract error raised with
      panic_with_error!, or a checked arithmetic operation that overflowed
      (here, the u64 subtraction of the history scan going below zero). */
  datatype Abort = Panic(error: Error) | Overflow

  /** A value held in storage. */
  datatype Value =
    | AddressValue(address: Address)
    | U32Value(u32Value: u32)
    | U64Value(u64Value: u64)
    | I128Value(i128Value: i128)
    | AddressListValue(addresses: seq<Address>)

  type Db = map<DataKey, Value>

  /** The kind of value the setter of each key writes. */
  predicate Fits(key: DataKey, v: Value) {
    match key
    case Admin => v.AddressValue?
    case Base => v.AddressValue?
    case Price(_) => v.I128Value?
    case Timestamp => v.U64Value?
    case Decimals => v.U32Value?
    case RdmPeriod => v.U64Value?
    case Resolution => v.U32Value?
    case Assets => v.AddressListValue?
  }

  /** Every stored value has the kind its key's setter writes, so that reading
      it back never fails to convert. */
  predicate WellTyped(db: Db) {
    forall k :: k in db ==> Fits(k, db[k])
  }

  // ---------------------------------------------------------------------
  // Typed getters: None when the key is absent, the stored value otherwise.
  // ---------------------------------------------------------------------

  function GetAdmin(db: Db): (admin: Option<Address>)
    requires WellTyped(db)
    ensures admin.Some? <==> DataKey.Admin in db
    ensures admin.Some? ==> db[DataKey.Admin] == AddressValue(admin.value)
  {
    if DataKey.Admin !in db then None else Some(db[DataKey.Admin].address)
  }

  function GetBase(db: Db): (base: Option<Address>)
    requires WellTyped(db)
    ensures base.Some? <==> DataKey.Base in db
    ensures base.Some? ==> db[DataKey.Base] == AddressValue(base.value)
  {
    if DataKey.Base !in db then None else Some(db[DataKey.Base].address)
  }

  function GetPrice(db: Db, asset: Address, timestamp: u64): (price: Option<i128>)
    requires WellTyped(db)
    ensures price.Some? <==> DataKey.Price(AssetPriceKey(asset, timestamp)) in db
    ensures price.Some? ==> db[DataKey.Price(AssetPriceKey(asset, timestamp))] == I128Value(price.value)
  {
    var key := DataKey.Price(AssetPriceKey(asset, timestamp));
    if key !in db then None else Some(db[key].i128Value)
  }

  function GetLastTimestamp(db: Db): (marker: Option<u64>)
    requires WellTyped(db)
    ensures marker.Some? <==> DataKey.Timestamp in db
    ensures marker.Some? ==> db[DataKey.Timestamp] == U64Value(marker.value)
  {
    if DataKey.Timestamp !in db then None else Some(db[DataKey.Timestamp].u64Value)
  }

  function GetDecimals(db: Db): (decimals: Option<u32>)
    requires WellTyped(db)
    ensures decimals.Some? <==> DataKey.Decimals in db
    ensures decimals.Some? ==> db[DataKey.Decimals] == U32Value(decimals.value)
  {
    if DataKey.Decimals !in db then None else Some(db[DataKey.Decimals].u32Value)
  }

  function GetRdmPeriod(db: Db): (period: Option<u64>)
    requires WellTyped(db)
    ensures period.Some? <==> DataKey.RdmPeriod in db
    ensures period.Some? ==> db[DataKey.RdmPeriod] == U64Value(period.value)
  {
    if DataKey.RdmPeriod !in db then None else Some(db[DataKey.RdmPeriod].u64Value)
  }

  function GetResolution(db: Db): (resolution: Option<u32>)
    requires WellTyped(db)
    ensures resolution.Some? <==> DataKey.Resolution in db
    ensures resolution.Some? ==> db[DataKey.Resolution] == U32Value(resolution.value)
  {
    if DataKey.Resolution !in db then None else Some(db[DataKey.Resolution].u32Value)
  }

  /** Unlike the other getters, an absent asset list reads as the empty list. */
  function GetAssets(db: Db): (assets: seq<Address>)
    requires WellTyped(db)
    ensures DataKey.Assets !in db ==> assets == []
    ensures DataKey.Assets in db ==> db[DataKey.Assets] == AddressListValue(assets)
  {
    if DataKey.Assets !in db then [] else db[DataKey.Assets].addresses
  }

  // ---------------------------------------------------------------------
  // Admin check
  // ---------------------------------------------------------------------

  /** The invoker's authentication is the host's business and is taken as
      given; what remains is the comparison with the stored admin. */
  function IsAuthorized(db: Db, invoker: Address): (authorized: bool)
    requires WellTyped(db)
    ensures DataKey.Admin !in db ==> !authorized
    ensures DataKey.Admin in db ==> (authorized <==> db[DataKey.Admin] == AddressValue(invoker))
  {
    var admin := GetAdmin(db);
    if admin.None? then false else invoker == admin.value
  }

  function IsInitialized(db: Db): (initialized: bool)
    requires WellTyped(db)
    ensures initialized <==> GetAdmin(db).Some?
  {
    DataKey.Admin in db
  }

  // ---------------------------------------------------------------------
  // The environment and its setters
  // ---------------------------------------------------------------------

  /** The contract environment; its storage is updated in place by the setters. */
  class Env {
    var storage: Db

    ghost predicate Valid()
      reads this
    {
      WellTyped(storage)
    }

    constructor (storage: Db)
      requires WellTyped(storage)
      ensures Valid() && this.storage == storage
    {
      this.storage := storage;
    }

    method SetAdmin(admin: Address)
      requires Valid()
      modifies this
      ensures Valid()
      ensures storage == old(storage)[DataKey.Admin := AddressValue(admin)]
      ensures GetAdmin(storage) == Some(admin)
    {
      storage := storage[DataKey.Admin := AddressValue(admin)];
    }

    method SetBase(base: Address)
      requires Valid()
      modifies this
      ensures Valid()
      ensures storage == old(storage)[DataKey.Base := AddressValue(base)]
      ensures GetBase(storage) == Some(base)
    {
      storage := storage[DataKey.Base := AddressValue(base)];
    }

    /** Writes one price record; a second write to the same key overwrites the first. */
    method SetPrice(asset: Address, price: i128, timestamp: u64)
      requires Valid()
      modifies this
      ensures Valid()
      ensures storage == old(storage)[DataKey.Price(AssetPriceKey(asset, timestamp)) := I128Value(price)]
      ensures GetPrice(storage, asset, timestamp) == Some(price)
      ensures forall a, t :: (a != asset || t != timestamp) ==> GetPrice(storage, a, t) == GetPrice(old(storage), a, t)
    {
      storage := storage[DataKey.Price(AssetPriceKey(asset, timestamp)) := I128Value(price)];
    }

    method SetLastTimestamp(timestamp: u64)
      requires Valid()
      modifies this
      ensures Valid()
      ensures storage == old(storage)[DataKey.Timestamp := U64Value(timestamp)]
      ensures GetLastTimestamp(storage) == Some(timestamp)
    {
      storage := storage[DataKey.Timestamp := U64Value(timestamp)];
    }

    method SetDecimals(decimals: u32)
      requires Valid()
      modifies this
      ensures Valid()
      ensures storage == old(storage)[DataKey.Decimals := U32Value(decimals)]
      ensures GetDecimals(storage) == Some(decimals)
    {
      storage := storage[DataKey.Decimals := U32Value(decimals)];
    }

    method SetRdmPeriod(period: u64)
      requires Valid()
      modifies this
      ensures Valid()
      ensures storage == old(storage)[DataKey.RdmPeriod := U64Value(period)]
      ensures GetRdmPeriod(storage) == Some(period)
    {
      storage := storage[DataKey.RdmPeriod := U64Value(period)];
    }

    method SetResolution(resolution: u32)
      requires Valid()
      modifies this
      ensures Valid()
      ensures storage == old(storage)[DataKey.Resolution := U32Value(resolution)]
      ensures GetResolution(storage) == Some(resolution)
    {
      storage := storage[DataKey.Resolution := U32Value(resolution)];
    }

    method SetAssets(assets: seq<Address>)
      requires Valid()
      modifies this
      ensures Valid()
      ensures storage == old(storage)[DataKey.Assets := AddressListValue(assets)]
      ensures GetAssets(storage) == assets
    {
      storage := storage[DataKey.Assets := AddressListValue(assets)];
    }
  }

  /** A price write is seen by the getter at its own key and by no other key. */
  lemma PriceWriteIsolated(db: Db, asset: Address, price: i128, timestamp: u64, a: Address, t: u64)
    requires WellTyped(db)
    ensures WellTyped(db[DataKey.Price(AssetPriceKey(asset, timestamp)) := I128Value(price)])
    ensures GetPrice(db[DataKey.Price(AssetPriceKey(asset, timestamp)) := I128Value(price)], a, t)
         == if a == asset && t == timestamp then Some(price) else GetPrice(db, a, t)
  {
  }

  // ---------------------------------------------------------------------
  // Cross price
  // ---------------------------------------------------------------------

  /** The fixed-point floor division `a.fixed_div_floor(b, decimals)`. Its
      definition is not part of this model, so it is a parameter; it may abort. */
  type FixedDivFloor = (i128, i128, u32) -> Result<i128, Abort>

  /** The price of `baseAsset` in units of `quoteAsset` at exactly `timestamp`. */
  function CrossPrice(db: Db, baseAsset: Address, quoteAsset: Address, timestamp: u64,
                      decimals: u32, fixedDivFloor: FixedDivFloor): (r: Result<Option<i128>, Abort>)
    requires WellTyped(db)
    ensures baseAsset == quoteAsset ==> r == Err(Panic(InvalidAssetPair))
    ensures baseAsset != quoteAsset && GetPrice(db, baseAsset, timestamp).None? ==> r == Ok(None)
    ensures baseAsset != quoteAsset && GetPrice(db, quoteAsset, timestamp).None? ==> r == Ok(None)
    ensures r.Ok? && r.value.Some? ==>
              && GetPrice(db, baseAsset, timestamp).Some?
              && GetPrice(db, quoteAsset, timestamp).Some?
              && fixedDivFloor(GetPrice(db, baseAsset, timestamp).value,
                               GetPrice(db, quoteAsset, timestamp).value, decimals) == Ok(r.value.value)
    ensures baseAsset != quoteAsset && GetPrice(db, baseAsset, timestamp).Some? && GetPrice(db, quoteAsset, timestamp).Some?
              && fixedDivFloor(GetPrice(db, baseAsset, timestamp).value,
                               GetPrice(db, quoteAsset, timestamp).value, decimals).Err? ==>
            r == Err(fixedDivFloor(GetPrice(db, baseAsset, timestamp).value,
                                   GetPrice(db, quoteAsset, timestamp).value, decimals).error)
    ensures baseAsset != quoteAsset && GetPrice(db, baseAsset, timestamp).Some? && GetPrice(db, quoteAsset, timestamp).Some?
              && fixedDivFloor(GetPrice(db, baseAsset, timestamp).value,
                               GetPrice(db, quoteAsset, timestamp).value, decimals).Ok? ==>
            r == Ok(Some(fixedDivFloor(GetPrice(db, baseAsset, timestamp).value,
                                       GetPrice(db, quoteAsset, timestamp).value, decimals).value))
  {
    if baseAsset == quoteAsset then Err(Panic(InvalidAssetPair))
    else
      var basePrice := GetPrice(db, baseAsset, timestamp);
      if basePrice.None? then Ok(None)
      else
        var quotePrice := GetPrice(db, quoteAsset, timestamp);
        if quotePrice.None? then Ok(None)
        else
          match fixedDivFloor(basePrice.value, quotePrice.value, decimals)
          case Ok(v) => Ok(Some(v))
          case Err(e) => Err(e)
  }

  /** The cross price through the stored decimals; None while decimals are unset. */
  function GetXPrice(db: Db, baseAsset: Address, quoteAsset: Address, timestamp: u64,
                     fixedDivFloor: FixedDivFloor): (r: Result<Option<i128>, Abort>)
    requires WellTyped(db)
    ensures GetDecimals(db).None? ==> r == Ok(None)
    ensures GetDecimals(db).Some? ==>
              r == CrossPrice(db, baseAsset, quoteAsset, timestamp, GetDecimals(db).value, fixedDivFloor)
  {
    var decimals := GetDecimals(db);
    if decimals.None? then Ok(None)
    else CrossPrice(db, baseAsset, quoteAsset, timestamp, decimals.value, fixedDivFloor)
  }

  // ---------------------------------------------------------------------
  // History scan
  // ---------------------------------------------------------------------

  /** What the scan asks of one slot: a price, no price, or an abort. */
  type Probe = u64 -> Result<Option<i128>, Abort>

  function DirectProbe(db: Db, asset: Address): Probe
    requires WellTyped(db)
  {
    t => Ok(GetPrice(db, asset, t))
  }

  function CrossProbe(db: Db, baseAsset: Address, quoteAsset: Address, decimals: u32,
                      fixedDivFloor: FixedDivFloor): Probe
    requires WellTyped(db)
  {
    t => CrossPrice(db, baseAsset, quoteAsset, t, decimals, fixedDivFloor)
  }

  function Prefixed(front: seq<PriceData>, rest: Result<seq<PriceData>, Abort>): Result<seq<PriceData>, Abort> {
    match rest
    case Ok(s) => Ok(front + s)
    case Err(e) => Err(e)
  }

  lemma PrefixedAppend(front: seq<PriceData>, d: PriceData, rest: Result<seq<PriceData>, Abort>)
    ensures Prefixed(front + [d], rest) == Prefixed(front, Prefixed([d], rest))
  {
    if rest.Ok? {
      assert (front + [d]) + rest.value == front + ([d] + rest.value);
    }
  }

  /**
   * The records the scan collects from slot `timestamp` backwards in at most
   * `rounds` rounds. A present slot is collected and the scan moves one
   * `timeframe` back; stepping below zero aborts (u64 arithmetic). A missing
   * slot ends the series: the scan re-probes that same slot in every round
   * left and collects nothing more.
   */
  function Series(probe: Probe, timestamp: u64, timeframe: u64, rounds: nat): (r: Result<seq<PriceData>, Abort>)
    ensures r.Ok? ==> |r.value| <= rounds
    ensures r.Ok? && r.value != [] ==> r.value[0].timestamp == timestamp
    decreases rounds
  {
    if rounds == 0 then Ok([])
    else match probe(timestamp)
      case Err(e) => Err(e)
      case Ok(None) => Ok([])
      case Ok(Some(price)) =>
        if timestamp < timeframe then Err(Overflow)
        else Prefixed([PriceData(price, timestamp)], Series(probe, timestamp - timeframe, timeframe, rounds - 1))
  }

  /** The slot probed after the records `s` were collected starting at `start`. */
  function NextSlot(start: u64, timeframe: u64, s: seq<PriceData>): u64
    requires s != [] ==> timeframe <= s[|s| - 1].timestamp
  {
    if s == [] then start else s[|s| - 1].timestamp - timeframe
  }

  /**
   * `s` is the longest run of consecutive present slots starting at `start`
   * and stepping back by `timeframe`, capped at `rounds` records, collected
   * without the step below any record underflowing.
   */
  ghost predicate IsRun(probe: Probe, start: u64, timeframe: u64, rounds: nat, s: seq<PriceData>) {
    && |s| <= rounds
    && (s != [] ==> s[0].timestamp == start)
    && (forall i :: 0 < i < |s| ==> s[i].timestamp == s[i - 1].timestamp - timeframe)
    && (forall i :: 0 <= i < |s| ==> timeframe <= s[i].timestamp && probe(s[i].timestamp) == Ok(Some(s[i].price)))
    && (|s| < rounds ==> probe(NextSlot(start, timeframe, s)) == Ok(None))
  }

  lemma {:induction false} SeriesIsRun(probe: Probe, start: u64, timeframe: u64, rounds: nat)
    requires Series(probe, start, timeframe, rounds).Ok?
    ensures IsRun(probe, start, timeframe, rounds, Series(probe, start, timeframe, rounds).value)
    decreases rounds
  {
    if rounds > 0 && probe(start).Ok? && probe(start).value.Some? {
      var price := probe(start).value.value;
      var rest := Series(probe, start - timeframe, timeframe, rounds - 1).value;
      SeriesIsRun(probe, start - timeframe, timeframe, rounds - 1);
      var s := [PriceData(price, start)] + rest;
      assert Series(probe, start, timeframe, rounds).value == s;
      forall i | 0 < i < |s|
        ensures s[i].timestamp == s[i - 1].timestamp - timeframe
      {
        if i > 1 {
          assert s[i] == rest[i - 1] && s[i - 1] == rest[i - 2];
        }
      }
      forall i | 0 <= i < |s|
        ensures timeframe <= s[i].timestamp && probe(s[i].timestamp) == Ok(Some(s[i].price))
      {
        if i > 0 {
          assert s[i] == rest[i - 1];
        }
      }
      if |s| < rounds {
        assert NextSlot(start, timeframe, s) == NextSlot(start - timeframe, timeframe, rest);
      }
    }
  }

  lemma {:induction false} RunIsSeries(probe: Probe, start: u64, timeframe: u64, rounds: nat, s: seq<PriceData>)
    requires IsRun(probe, start, timeframe, rounds, s)
    ensures Series(probe, start, timeframe, rounds) == Ok(s)
    decreases rounds
  {
    if rounds > 0 && s != [] {
      var rest := s[1..];
      assert probe(start) == Ok(Some(s[0].price));
      forall i | 0 < i < |rest|
        ensures rest[i].timestamp == rest[i - 1].timestamp - timeframe
      {
        assert rest[i] == s[i + 1] && rest[i - 1] == s[i];
      }
      forall i | 0 <= i < |rest|
        ensures timeframe <= rest[i].timestamp && probe(rest[i].timestamp) == Ok(Some(rest[i].price))
      {
        assert rest[i] == s[i + 1];
      }
      if rest != [] {
        assert rest[0] == s[1];
      }
      if |rest| < rounds - 1 {
        assert NextSlot(start - timeframe, timeframe, rest) == NextSlot(start, timeframe, s);
      }
      assert IsRun(probe, start - timeframe, timeframe, rounds - 1, rest);
      RunIsSeries(probe, start - timeframe, timeframe, rounds - 1, rest);
      assert [PriceData(s[0].price, start)] + rest == s;
    }
  }

  /** The scan's result is exactly the run of consecutive present slots. */
  lemma SeriesIffRun(probe: Probe, start: u64, timeframe: u64, rounds: nat, s: seq<PriceData>)
    ensures Series(probe, start, timeframe, rounds) == Ok(s) <==> IsRun(probe, start, timeframe, rounds, s)
  {
    if Series(probe, start, timeframe, rounds) == Ok(s) {
      SeriesIsRun(probe, start, timeframe, rounds);
    }
    if IsRun(probe, start, timeframe, rounds, s) {
      RunIsSeries(probe, start, timeframe, rounds, s);
    }
  }

  /**
   * The outcome of the scan anchored on the last-timestamp marker: None when
   * the marker is absent or zero, None when nothing was collected, otherwise
   * the collected series.
   */
  function History(marker: Option<u64>, probe: Probe, rounds: u32, timeframe: u64): (r: Result<Option<seq<PriceData>>, Abort>)
    ensures marker.None? || marker.value == 0 ==> r == Ok(None)
    ensures r.Ok? && r.value.Some? ==> r.value.value != []
  {
    var start := if marker.Some? then marker.value else 0;
    if start == 0 then Ok(None)
    else match Series(probe, start, timeframe, rounds)
      case Err(e) => Err(e)
      case Ok(collected) => if |collected| == 0 then Ok(None) else Ok(Some(collected))
  }

  /** The scan loop: `rounds` rounds starting at the marker. */
  method Prices(db: Db, probe: Probe, rounds: u32, timeframe: u64) returns (r: Result<Option<seq<PriceData>>, Abort>)
    requires WellTyped(db)
    ensures r == History(GetLastTimestamp(db), probe, rounds, timeframe)
  {
    var marker := GetLastTimestamp(db);
    var timestamp: u64 := if marker.Some? then marker.value else 0;
    if timestamp == 0 {
      return Ok(None);
    }
    ghost var start := timestamp;
    var prices: seq<PriceData> := [];
    var round: nat := 0;
    assert Prefixed([], Series(probe, start, timeframe, rounds)) == Series(probe, start, timeframe, rounds) by {
      var whole := Series(probe, start, timeframe, rounds);
      if whole.Ok? {
        assert [] + whole.value == whole.value;
      }
    }
    while round < rounds
      invariant round <= rounds
      invariant Series(probe, start, timeframe, rounds)
             == Prefixed(prices, Series(probe, timestamp, timeframe, rounds - round))
    {
      var price := probe(timestamp);
      if price.Err? {
        return Err(price.error);
      }
      if price.value.None? {
        // every later round re-probes this same slot
        assert Series(probe, timestamp, timeframe, rounds - round) == Ok([]);
        assert Series(probe, timestamp, timeframe, rounds - round - 1) == Ok([]);
        round := round + 1;
        continue;
      }
      prices := prices + [PriceData(price.value.value, timestamp)];
      if timestamp < timeframe {
        return Err(Overflow);
      }
      PrefixedAppend(prices[..|prices| - 1], PriceData(price.value.value, timestamp),
                     Series(probe, timestamp - timeframe, timeframe, rounds - round - 1));
      assert prices[..|prices| - 1] + [PriceData(price.value.value, timestamp)] == prices;
      timestamp := timestamp - timeframe;
      round := round + 1;
    }
    assert Prefixed(prices, Ok([])) == Ok(prices) by {
      assert prices + [] == prices;
    }
    if |prices| == 0 {
      return Ok(None);
    }
    return Ok(Some(prices));
  }

  /** The last `rounds` records of `asset`; None while resolution or decimals are unset. */
  method GetPrices(db: Db, asset: Address, rounds: u32) returns (r: Result<Option<seq<PriceData>>, Abort>)
    requires WellTyped(db)
    ensures GetResolution(db).None? || GetDecimals(db).None? ==> r == Ok(None)
    ensures GetResolution(db).Some? && GetDecimals(db).Some? ==>
              r == History(GetLastTimestamp(db), DirectProbe(db, asset), rounds, GetResolution(db).value)
  {
    var timeframe := GetResolution(db);
    if timeframe.None? {
      return Ok(None);
    }
    var decimals := GetDecimals(db);
    if decimals.None? {
      return Ok(None);
    }
    r := Prices(db, DirectProbe(db, asset), rounds, timeframe.value);
  }

  /** The last `rounds` cross prices of the pair; None while resolution or decimals are unset. */
  method GetXPrices(db: Db, baseAsset: Address, quoteAsset: Address, rounds: u32, fixedDivFloor: FixedDivFloor)
    returns (r: Result<Option<seq<PriceData>>, Abort>)
    requires WellTyped(db)
    ensures GetResolution(db).None? || GetDecimals(db).None? ==> r == Ok(None)
    ensures GetResolution(db).Some? && GetDecimals(db).Some? ==>
              r == History(GetLastTimestamp(db),
                           CrossProbe(db, baseAsset, quoteAsset, GetDecimals(db).value, fixedDivFloor),
                           rounds, GetResolution(db).value)
  {
    var timeframe := GetResolution(db);
    if timeframe.None? {
      return Ok(None);
    }
    var decimals := GetDecimals(db);
    if decimals.None? {
      return Ok(None);
    }
    r := Prices(db, CrossProbe(db, baseAsset, quoteAsset, decimals.value, fixedDivFloor), rounds, timeframe.value);
  }

  // ---------------------------------------------------------------------
  // Properties of the scan
  // ---------------------------------------------------------------------

  /** A non-empty history starts at the marker, holds at most `rounds`
      records, steps back by exactly `timeframe`, reports each slot's own
      price, and stops short of `rounds` only at a missing slot. */
  lemma HistoryShape(marker: Option<u64>, probe: Probe, rounds: u32, timeframe: u64)
    requires History(marker, probe, rounds, timeframe).Ok?
    requires History(marker, probe, rounds, timeframe).value.Some?
    ensures var s := History(marker, probe, rounds, timeframe).value.value;
            && marker.Some?
            && 1 <= |s| <= rounds
            && s[0].timestamp == marker.value
            && (forall i :: 0 < i < |s| ==> s[i].timestamp == s[i - 1].timestamp - timeframe)
            && (forall i :: 0 <= i < |s| ==> probe(s[i].timestamp) == Ok(Some(s[i].price)))
            && (|s| < rounds ==>
                  timeframe <= s[|s| - 1].timestamp && probe(s[|s| - 1].timestamp - timeframe) == Ok(None))
  {
    SeriesIsRun(probe, marker.value, timeframe, rounds);
  }

  /** The history is None exactly when there is no usable marker, no round,
      or no record at the marker's own slot. */
  lemma HistoryNoneIff(marker: Option<u64>, probe: Probe, rounds: u32, timeframe: u64)
    requires probe(if marker.Some? then marker.value else 0).Ok?
    ensures History(marker, probe, rounds, timeframe) == Ok(None)
        <==> marker.None? || marker.value == 0 || rounds == 0 || probe(marker.value) == Ok(None)
  {
  }

  /**
   * A scan over one asset anchored on a slot of the `timeframe` grid never
   * underflows unless a record is stored at timestamp 0.
   */
  lemma {:induction false} AlignedScanNeverOverflows(db: Db, asset: Address, k: nat, timeframe: u64, rounds: nat)
    requires WellTyped(db)
    requires k * timeframe <= U64_MAX
    requires GetPrice(db, asset, 0).None?
    ensures Series(DirectProbe(db, asset), k * timeframe, timeframe, rounds).Ok?
    decreases rounds
  {
    var probe := DirectProbe(db, asset);
    var t := k * timeframe;
    if rounds > 0 && probe(t).value.Some? {
      assert k != 0;
      assert t - timeframe == (k - 1) * timeframe;
      AlignedScanNeverOverflows(db, asset, k - 1, timeframe, rounds - 1);
    }
  }

  /** A history of a pair of equal assets aborts at its first probe. */
  lemma SamePairAborts(db: Db, asset: Address, rounds: u32, fixedDivFloor: FixedDivFloor)
    requires WellTyped(db)
    requires GetResolution(db).Some? && GetDecimals(db).Some?
    requires GetLastTimestamp(db).Some? && GetLastTimestamp(db).value != 0
    requires rounds > 0
    ensures History(GetLastTimestamp(db), CrossProbe(db, asset, asset, GetDecimals(db).value, fixedDivFloor),
                    rounds, GetResolution(db).value) == Err(Panic(InvalidAssetPair))
  {
  }

  /**
   * A gap ends the series even when older records exist: with records at 300
   * and 100 but none at 200, three rounds of 100 seconds yield only the record
   * at 300.
   */
  lemma FirstGapEndsSeries(asset: Address)
    ensures var db := map[DataKey.Timestamp := U64Value(300),
                          DataKey.Price(AssetPriceKey(asset, 300)) := I128Value(10),
                          DataKey.Price(AssetPriceKey(asset, 100)) := I128Value(30)];
            WellTyped(db) && History(GetLastTimestamp(db), DirectProbe(db, asset), 3, 100) == Ok(Some([PriceData(10, 300)]))
  {
    var db := map[DataKey.Timestamp := U64Value(300),
                  DataKey.Price(AssetPriceKey(asset, 300)) := I128Value(10),
                  DataKey.Price(AssetPriceKey(asset, 100)) := I128Value(30)];
    var probe := DirectProbe(db, asset);
    assert probe(300) == Ok(Some(10));
    assert probe(200) == Ok(None);
    assert Series(probe, 200, 100, 2) == Ok([]);
    assert Series(probe, 300, 100, 3) == Prefixed([PriceData(10, 300)], Series(probe, 200, 100, 2));
    assert [PriceData(10, 300)] + [] == [PriceData(10, 300)];
  }
}
