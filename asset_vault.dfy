/**
 * The asset vault: an owner's stored assets, and the release a verified
 * death triggers, which marks every asset of the owner releasable.
 */
module AssetVault {
  import opened Wrappers
  import opened Nest

  /** A stored asset; `description` is a nullable column. */
  datatype Asset = Asset(
    id: string,
    name: string,
    description: Option<string>,
    kind: string,
    encryptedDetails: string,
    ownerId: string,
    isReleasable: bool)

  predicate UniqueIds(assets: seq<Asset>) {
    forall i, j :: 0 <= i < j < |assets| ==> assets[i].id != assets[j].id
  }

  /**
   * The table after `markAssetsAsReleasable(userId)`: every asset of the user
   * is releasable; other owners' assets, and every other field, are as they were.
   */
  function Released(assets: seq<Asset>, userId: string): (r: seq<Asset>)
    ensures |r| == |assets|
    ensures forall i :: 0 <= i < |assets| && assets[i].ownerId == userId ==> r[i] == assets[i].(isReleasable := true)
    ensures forall i :: 0 <= i < |assets| && assets[i].ownerId != userId ==> r[i] == assets[i]
  {
    seq(|assets|, i requires 0 <= i < |assets| =>
      if assets[i].ownerId == userId then assets[i].(isReleasable := true) else assets[i])
  }

  /** Releasing twice is releasing once. */
  lemma ReleaseIdempotent(assets: seq<Asset>, userId: string)
    ensures Released(Released(assets, userId), userId) == Released(assets, userId)
  {
  }

  /** Afterwards every asset of the user is releasable, and those that were stay so. */
  lemma ReleasedAll(assets: seq<Asset>, userId: string)
    ensures forall a :: a in Released(assets, userId) && a.ownerId == userId ==> a.isReleasable
    ensures forall i :: 0 <= i < |assets| && assets[i].isReleasable ==> Released(assets, userId)[i].isReleasable
  {
    var r := Released(assets, userId);
    forall a | a in r && a.ownerId == userId
      ensures a.isReleasable
    {
      var i :| 0 <= i < |r| && r[i] == a;
    }
  }

  /** The assets of an owner, in table order. */
  function AssetsOf(assets: seq<Asset>, ownerId: string): (r: seq<Asset>)
    ensures forall a :: a in r <==> a in assets && a.ownerId == ownerId
    ensures |r| <= |assets|
  {
    if |assets| == 0 then []
    else (if assets[0].ownerId == ownerId then [assets[0]] else []) + AssetsOf(assets[1..], ownerId)
  }

  function NotFoundMessage(id: string): string {
    "Asset with ID " + id + " not found."
  }

  /** `getAssetById`: the asset with that id, or NotFound. */
  function AssetById(assets: seq<Asset>, id: string): (r: Result<Asset, HttpError>)
    ensures r.Failure? <==> forall i :: 0 <= i < |assets| ==> assets[i].id != id
    ensures r.Failure? ==> r.error == NotFound(NotFoundMessage(id))
    ensures r.Success? ==> r.value in assets && r.value.id == id
  {
    if |assets| == 0 then Failure(NotFound(NotFoundMessage(id)))
    else if assets[0].id == id then Success(assets[0])
    else AssetById(assets[1..], id)
  }

  function ReleasedMessage(userId: string): string {
    "Assets marked as releasable for user " + userId
  }

  class AssetVaultService {
    var assets: seq<Asset>

    constructor (assets: seq<Asset>)
      ensures this.assets == assets
    {
      this.assets := assets;
    }

    /** `markAssetsAsReleasable`: one bulk update of the user's rows. */
    method MarkAssetsAsReleasable(userId: string, correlationId: string) returns (ack: Ack)
      modifies this
      ensures assets == Released(old(assets), userId)
      ensures ack == Ack("success", ReleasedMessage(userId))
    {
      assets := Released(assets, userId);
      ack := Ack("success", ReleasedMessage(userId));
    }

    /** `createAsset`: a new asset, not releasable; `newId` is the id the database generates. */
    method CreateAsset(ownerId: string, name: string, kind: string, encryptedDetails: string,
                       description: Option<string>, newId: string) returns (a: Asset)
      requires forall i :: 0 <= i < |assets| ==> assets[i].id != newId
      modifies this
      ensures a == Asset(newId, name, description, kind, encryptedDetails, ownerId, false)
      ensures assets == old(assets) + [a]
      ensures UniqueIds(old(assets)) ==> UniqueIds(assets)
    {
      a := Asset(newId, name, description, kind, encryptedDetails, ownerId, false);
      assets := assets + [a];
    }

    /** `findAssetsByOwner`. */
    method FindAssetsByOwner(ownerId: string) returns (r: seq<Asset>)
      ensures r == AssetsOf(assets, ownerId)
    {
      r := AssetsOf(assets, ownerId);
    }

    /** `getAssetById`. */
    method GetAssetById(assetId: string) returns (r: Result<Asset, HttpError>)
      ensures r == AssetById(assets, assetId)
    {
      r := AssetById(assets, assetId);
    }
  }
}
