/**
 * The single-slot oracle contract: one admin set once, a per-identity nonce
 * consumed by every signed call, and for each asset the last price the admin
 * published together with the ledger time of publication.
 *
 * Signature verification and the ledger clock belong to the host; they enter
 * as parameters of SetPrice.
 */
module LegacyOracle {
  import Common

  type u64 = Common.u64

  /** An authenticated identity (an account or a contract). Only equality is observable. */
  datatype Identifier = Identifier(id: nat)

  /** A 16-byte asset name. */
  type Bytes16 = s: seq<bv8> | |s| == 16 witness seq(16, i => 0 as bv8)

  datatype AssetName = AssetName(name: Bytes16)

  datatype DataKey =
    | Admin
    | Nonce(id: Identifier)
    | Asset(asset: AssetName)

  datatype AssetPriceData = AssetPriceData(price: u64, timestamp: u64)

  /** What get_price answers: a tagged "no price" or the stored record. */
  datatype AssetPrice =
    | None
    | AssetPrice(data: AssetPriceData)

  datatype AssetPriceUpdate = AssetPriceUpdate(asset: AssetName, price: u64)

  /** One element of an update batch as it arrives: it either converts to an
      update or it does not. */
  datatype Entry = Decoded(update: AssetPriceUpdate) | Malformed

  /** Why a call aborts: "Contract already initialized", "Not authorized by
      admin", or a signature that the host's check refuses. */
  datatype Failure = AlreadyInitialized | NotAuthorizedByAdmin | AuthRejected

  datatype Value =
    | IdentifierValue(identifier: Identifier)
    | BigIntValue(bigInt: int)
    | PriceValue(assetPrice: AssetPrice)

  type Db = map<DataKey, Value>

  /** The kind of value each key holds. */
  predicate Fits(key: DataKey, v: Value) {
    match key
    case Admin => v.IdentifierValue?
    case Nonce(_) => v.BigIntValue?
    case Asset(_) => v.PriceValue?
  }

  predicate WellTyped(db: Db) {
    forall k :: k in db ==> Fits(k, db[k])
  }

  function IsInitialized(db: Db): (initialized: bool)
    ensures initialized <==> DataKey.Admin in db
  {
    DataKey.Admin in db
  }

  /** The nonce of `id`; an identity never seen has nonce 0. */
  function ReadNonce(db: Db, id: Identifier): (n: int)
    requires WellTyped(db)
    ensures DataKey.Nonce(id) !in db ==> n == 0
    ensures DataKey.Nonce(id) in db ==> db[DataKey.Nonce(id)] == BigIntValue(n)
  {
    if DataKey.Nonce(id) in db then db[DataKey.Nonce(id)].bigInt else 0
  }

  /** The price stored for `asset`, or None for an asset never written. */
  function GetPrice(db: Db, asset: AssetName): (p: AssetPrice)
    requires WellTyped(db)
    ensures DataKey.Asset(asset) !in db ==> p == None
    ensures DataKey.Asset(asset) in db ==> db[DataKey.Asset(asset)] == PriceValue(p)
  {
    if DataKey.Asset(asset) !in db then None else db[DataKey.Asset(asset)].assetPrice
  }

  /** Whether the entry is a well-formed update of `asset`. */
  predicate Writes(entry: Entry, asset: AssetName) {
    entry.Decoded? && entry.update.asset == asset
  }

  /** The store after writing, in order, every well-formed entry of the batch
      with the given publication time. */
  function ApplyUpdates(db: Db, updates: seq<Entry>, now: u64): (r: Db)
    requires WellTyped(db)
    ensures WellTyped(r)
    ensures forall k: DataKey | !k.Asset? :: (k in r <==> k in db) && (k in r ==> r[k] == db[k])
    decreases |updates|
  {
    if updates == [] then db
    else
      var before := ApplyUpdates(db, updates[..|updates| - 1], now);
      var last := updates[|updates| - 1];
      if last.Malformed? then before
      else before[DataKey.Asset(last.update.asset) := PriceValue(AssetPrice(AssetPriceData(last.update.price, now)))]
  }

  /** Entry `i` is the last well-formed update of `asset` in the batch. */
  ghost predicate LastWriteAt(updates: seq<Entry>, asset: AssetName, i: int) {
    && 0 <= i < |updates|
    && Writes(updates[i], asset)
    && forall j :: i < j < |updates| ==> !Writes(updates[j], asset)
  }

  /** After a batch, an asset's price is the one of its last well-formed update,
      stamped with the publication time: a later update overwrites an earlier one. */
  lemma {:induction false} BatchKeepsLastWrite(db: Db, updates: seq<Entry>, now: u64, asset: AssetName, i: int)
    requires WellTyped(db) && LastWriteAt(updates, asset, i)
    ensures GetPrice(ApplyUpdates(db, updates, now), asset)
         == AssetPrice(AssetPriceData(updates[i].update.price, now))
    decreases |updates|
  {
    var n := |updates| - 1;
    if i < n {
      assert !Writes(updates[n], asset);
      var front := updates[..n];
      assert LastWriteAt(front, asset, i) by {
        forall j | i < j < |front| ensures !Writes(front[j], asset) {
          assert front[j] == updates[j];
        }
      }
      BatchKeepsLastWrite(db, front, now, asset, i);
    }
  }

  /** An asset no well-formed entry names keeps the price it had. */
  lemma {:induction false} BatchLeavesUnwritten(db: Db, updates: seq<Entry>, now: u64, asset: AssetName)
    requires WellTyped(db)
    requires forall j :: 0 <= j < |updates| ==> !Writes(updates[j], asset)
    ensures GetPrice(ApplyUpdates(db, updates, now), asset) == GetPrice(db, asset)
    decreases |updates|
  {
    if updates != [] {
      var n := |updates| - 1;
      assert !Writes(updates[n], asset);
      var front := updates[..n];
      forall j | 0 <= j < |front| ensures !Writes(front[j], asset) {
        assert front[j] == updates[j];
      }
      BatchLeavesUnwritten(db, front, now, asset);
    }
  }

  class OracleContract {
    var data: Db

    ghost predicate Valid()
      reads this
    {
      WellTyped(data)
    }

    /** A freshly deployed contract has empty storage. */
    constructor ()
      ensures Valid() && data == map[]
    {
      data := map[];
    }

    /** Sets the admin once; a second call aborts and changes nothing. */
    method Init(admin: Identifier) returns (r: Common.Result<(), Failure>)
      requires Valid()
      modifies this
      ensures Valid()
      ensures IsInitialized(old(data)) ==> r == Common.Err(AlreadyInitialized) && data == old(data)
      ensures !IsInitialized(old(data)) ==>
                r == Common.Ok(()) && data == old(data)[DataKey.Admin := IdentifierValue(admin)]
    {
      if IsInitialized(data) {
        return Common.Err(AlreadyInitialized);
      }
      data := data[DataKey.Admin := IdentifierValue(admin)];
      r := Common.Ok(());
    }

    /** Returns the current nonce of `id` and stores its successor. */
    method ReadAndIncrementNonce(id: Identifier) returns (nonce: int)
      requires Valid()
      modifies this
      ensures Valid()
      ensures nonce == ReadNonce(old(data), id)
      ensures data == old(data)[DataKey.Nonce(id) := BigIntValue(nonce + 1)]
      ensures ReadNonce(data, id) == nonce + 1
    {
      nonce := ReadNonce(data, id);
      data := data[DataKey.Nonce(id) := BigIntValue(nonce + 1)];
    }

    /**
     * Publishes a batch of prices stamped with the ledger time `now`. Only the
     * stored admin may sign; the host's signature check (`authPasses`) then
     * consumes the signer's nonce. Malformed entries are skipped.
     */
    method SetPrice(signer: Identifier, authPasses: bool, updates: seq<Entry>, now: u64)
      returns (r: Common.Result<(), Failure>)
      requires Valid()
      modifies this
      ensures Valid()
      ensures !IsInitialized(old(data)) ==> r == Common.Err(NotAuthorizedByAdmin) && data == old(data)
      ensures IsInitialized(old(data)) && old(data)[DataKey.Admin] != IdentifierValue(signer) ==>
                r == Common.Err(NotAuthorizedByAdmin) && data == old(data)
      ensures IsInitialized(old(data)) && old(data)[DataKey.Admin] == IdentifierValue(signer) && !authPasses ==>
                r == Common.Err(AuthRejected) && data == old(data)
      ensures IsInitialized(old(data)) && old(data)[DataKey.Admin] == IdentifierValue(signer) && authPasses ==>
                && r == Common.Ok(())
                && data == ApplyUpdates(old(data)[DataKey.Nonce(signer) := BigIntValue(ReadNonce(old(data), signer) + 1)],
                                        updates, now)
    {
      if !IsInitialized(data) {
        return Common.Err(NotAuthorizedByAdmin);
      }
      if data[DataKey.Admin].identifier != signer {
        return Common.Err(NotAuthorizedByAdmin);
      }
      if !authPasses {
        return Common.Err(AuthRejected);
      }
      var _ := ReadAndIncrementNonce(signer);
      ghost var signed := data;
      for i := 0 to |updates|
        invariant WellTyped(data)
        invariant data == ApplyUpdates(signed, updates[..i], now)
      {
        assert updates[..i + 1][..i] == updates[..i];
        var u := updates[i];
        if u.Malformed? {
          continue;
        }
        data := data[DataKey.Asset(u.update.asset) := PriceValue(AssetPrice(AssetPriceData(u.update.price, now)))];
      }
      assert updates[..|updates|] == updates;
      r := Common.Ok(());
    }
  }

  /** A successful batch changes no admin and no nonce other than the signer's,
      and advances the signer's nonce by one. */
  lemma SetPriceTouchesOnlyAssetsAndSignerNonce(db: Db, signer: Identifier, updates: seq<Entry>, now: u64)
    requires WellTyped(db)
    ensures var after := ApplyUpdates(db[DataKey.Nonce(signer) := BigIntValue(ReadNonce(db, signer) + 1)], updates, now);
            && ReadNonce(after, signer) == ReadNonce(db, signer) + 1
            && (DataKey.Admin in after <==> DataKey.Admin in db)
            && (DataKey.Admin in db ==> after[DataKey.Admin] == db[DataKey.Admin])
            && forall id | id != signer :: ReadNonce(after, id) == ReadNonce(db, id)
  {
    var signed := db[DataKey.Nonce(signer) := BigIntValue(ReadNonce(db, signer) + 1)];
    var after := ApplyUpdates(signed, updates, now);
    assert !DataKey.Nonce(signer).Asset? && !DataKey.Admin.Asset?;
    forall id | id != signer ensures ReadNonce(after, id) == ReadNonce(db, id) {
      assert !DataKey.Nonce(id).Asset?;
    }
  }

  /**
   * The life of the contract as its own tests exercise it: no price and an
   * outsider refused before initialization, an outsider refused again after
   * it, prices 100 and 200 published at ledger time 0 by the admin, and None
   * for an unknown asset.
   */
  method PublishScenario(admin: Identifier, outsider: Identifier, a1: AssetName, a2: AssetName, unknown: AssetName)
    requires a1 != a2 && unknown != a1 && unknown != a2 && outsider != admin
  {
    var oracle := new OracleContract();
    assert GetPrice(oracle.data, a1) == None;
    var batch := [Decoded(AssetPriceUpdate(a1, 100)), Decoded(AssetPriceUpdate(a2, 200))];
    var done := oracle.SetPrice(outsider, true, batch, 0);
    assert done == Common.Err(NotAuthorizedByAdmin) && oracle.data == map[];
    done := oracle.Init(admin);
    assert done.Ok?;
    assert ReadNonce(oracle.data, admin) == 0;
    done := oracle.SetPrice(outsider, true, batch, 0);
    assert done == Common.Err(NotAuthorizedByAdmin);
    ghost var initialized := oracle.data;
    done := oracle.SetPrice(admin, true, batch, 0);
    assert done.Ok?;
    BatchLeavesUnwritten(initialized[DataKey.Nonce(admin) := BigIntValue(1)], batch, 0, unknown);
    assert GetPrice(oracle.data, a1) == AssetPrice(AssetPriceData(100, 0));
    assert GetPrice(oracle.data, a2) == AssetPrice(AssetPriceData(200, 0));
    assert GetPrice(oracle.data, unknown) == None;
    assert ReadNonce(oracle.data, admin) == 1;
    done := oracle.Init(outsider);
    assert done == Common.Err(AlreadyInitialized);
  }
}
