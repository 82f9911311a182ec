/**
 * The AWS IoT SiteWise service as the integration sees it: its data types
 * and an opaque recorder that logs every call together with the reply it
 * gave. Replies come from oracle functions fixed at construction, indexed by
 * the position of the call in the log, so any behaviour of the real service
 * (failures included) is one choice of oracles.
 */
module SiteWiseApi {
  import opened Wrappers
  import opened Errors
  import opened Samples

  datatype DataType = DoubleType | StringType

  /** The type of a model property: a raw measurement, or any derived kind (transform, metric, attribute). */
  datatype PropertyKind = Measurement | Derived

  /** A property of an asset model; properties not yet created have no id. */
  datatype ModelProperty = ModelProperty(
    id: Option<string>,
    name: string,
    dataType: DataType,
    kind: Option<PropertyKind>,
    unit: Option<string>)

  datatype State = Creating | Active | Updating | Propagating | Deleting | Failed

  /** Model fields the integration copies into an update without looking at them. */
  datatype ModelExtras = ModelExtras(hierarchies: seq<string>, externalId: Option<string>, compositeModels: seq<string>)

  /** A described asset model. */
  datatype AssetModel = AssetModel(
    id: string,
    name: string,
    description: Option<string>,
    properties: seq<ModelProperty>,
    extras: ModelExtras,
    state: State)

  /** The body of an UpdateAssetModel request. */
  datatype ModelUpdate = ModelUpdate(
    id: string,
    name: string,
    description: Option<string>,
    properties: seq<ModelProperty>,
    extras: ModelExtras)

  /** A property definition of a CreateAssetModel request; always a Measurement. */
  datatype Definition = Definition(name: string, dataType: DataType, unit: Option<string>)

  datatype ModelSummary = ModelSummary(id: string)
  datatype AssetSummary = AssetSummary(id: string, name: string, externalId: Option<string>)
  datatype AssetProperty = AssetProperty(id: string, name: string, alias: Option<string>)
  datatype Asset = Asset(id: string, properties: seq<AssetProperty>, state: State)

  /** The value of a property at one time; the quality is always GOOD. */
  datatype Variant = DoubleValue(d: Double) | StringValue(s: string) | IntegerValue(i: Int32)
  datatype PropertyValue = PropertyValue(time: Int64, value: Variant)
  datatype Entry = Entry(entryId: string, alias: string, values: seq<PropertyValue>)

  /** One page of a listing; the continuation token is the index of the next page. */
  datatype Page<T> = Page(items: seq<T>, next: Option<nat>)

  datatype Call =
    | ListAssetModelsCall(token: Option<nat>, listedModels: Result<Page<ModelSummary>, Error>)
    | ListAssetsCall(modelId: string, token: Option<nat>, listedAssets: Result<Page<AssetSummary>, Error>)
    | DescribeAssetModelCall(describedId: string, model: Result<AssetModel, Error>)
    | DescribeAssetCall(assetId: string, asset: Result<Asset, Error>)
    | CreateAssetModelCall(modelName: string, definitions: seq<Definition>, createdModel: Result<string, Error>)
    | UpdateAssetModelCall(update: ModelUpdate, updated: Option<Error>)
    | CreateAssetCall(assetName: string, assetModelId: string, externalId: string, createdAsset: Result<string, Error>)
    | UpdateAssetPropertyCall(updatedAsset: string, propertyId: string, alias: string, aliased: Option<Error>)
    | BatchPutCall(entries: seq<Entry>, put: Result<seq<string>, Error>)

  /** The page a token designates; the first page when there is no token. */
  function PageAt<T>(pages: seq<seq<T>>, token: Option<nat>): (p: Page<T>)
    ensures p.next.Some? ==> p.next.value < |pages| && p.next.value > PageIndex(token)
  {
    var k := PageIndex(token);
    if k < |pages| then Page(pages[k], if k + 1 < |pages| then Some(k + 1) else None)
    else Page([], None)
  }

  function PageIndex(token: Option<nat>): nat
  {
    if token.None? then 0 else token.value
  }

  /** The error a recorded call failed with, if any. */
  function CallError(c: Call): Option<Error>
  {
    match c
    case ListAssetModelsCall(_, r) => if r.Err? then Some(r.error) else None
    case ListAssetsCall(_, _, r) => if r.Err? then Some(r.error) else None
    case DescribeAssetModelCall(_, r) => if r.Err? then Some(r.error) else None
    case DescribeAssetCall(_, r) => if r.Err? then Some(r.error) else None
    case CreateAssetModelCall(_, _, r) => if r.Err? then Some(r.error) else None
    case UpdateAssetModelCall(_, r) => r
    case CreateAssetCall(_, _, _, r) => if r.Err? then Some(r.error) else None
    case UpdateAssetPropertyCall(_, _, _, r) => r
    case BatchPutCall(_, r) => if r.Err? then Some(r.error) else None
  }

  class Service {
    /** Every call made so far, with its reply. */
    var log: seq<Call>
    /** The error, if any, the n-th call fails with. */
    const failure: nat -> Option<Error>
    /** The asset-model listing, page by page. */
    const modelPages: seq<seq<ModelSummary>>
    /** The asset listing of each model, page by page. */
    const assetPages: string -> seq<seq<AssetSummary>>
    /** The model the n-th call describes for an id. */
    const describedModel: (nat, string) -> AssetModel
    /** The asset the n-th call describes for an id. */
    const describedAsset: (nat, string) -> Asset
    /** The id the n-th call gives a created model or asset. */
    const newId: nat -> string
    /** The entry ids the n-th batch put reports as failed. */
    const rejectedEntries: nat -> seq<string>

    constructor (
      failure: nat -> Option<Error>,
      modelPages: seq<seq<ModelSummary>>,
      assetPages: string -> seq<seq<AssetSummary>>,
      describedModel: (nat, string) -> AssetModel,
      describedAsset: (nat, string) -> Asset,
      newId: nat -> string,
      rejectedEntries: nat -> seq<string>)
      ensures log == []
      ensures this.failure == failure && this.modelPages == modelPages && this.assetPages == assetPages
      ensures this.describedModel == describedModel && this.describedAsset == describedAsset
      ensures this.newId == newId && this.rejectedEntries == rejectedEntries
    {
      log := [];
      this.failure := failure;
      this.modelPages := modelPages;
      this.assetPages := assetPages;
      this.describedModel := describedModel;
      this.describedAsset := describedAsset;
      this.newId := newId;
      this.rejectedEntries := rejectedEntries;
    }

    /** The reply of the next call: its failure, or the given value. */
    function Reply<T>(value: T): (r: Result<T, Error>)
      reads this
      ensures r.Ok? <==> failure(|log|).None?
    {
      if failure(|log|).Some? then Err(failure(|log|).value) else Ok(value)
    }

    /** The outcome of the next call that returns no value. */
    function Outcome(): Option<Error>
      reads this
    {
      failure(|log|)
    }

    method ListAssetModels(token: Option<nat>) returns (r: Result<Page<ModelSummary>, Error>)
      modifies this
      ensures r == old(Reply(PageAt(modelPages, token)))
      ensures log == old(log) + [ListAssetModelsCall(token, r)]
    {
      r := Reply(PageAt(modelPages, token));
      log := log + [ListAssetModelsCall(token, r)];
    }

    method ListAssets(modelId: string, token: Option<nat>) returns (r: Result<Page<AssetSummary>, Error>)
      modifies this
      ensures r == old(Reply(PageAt(assetPages(modelId), token)))
      ensures log == old(log) + [ListAssetsCall(modelId, token, r)]
    {
      r := Reply(PageAt(assetPages(modelId), token));
      log := log + [ListAssetsCall(modelId, token, r)];
    }

    method DescribeAssetModel(modelId: string) returns (r: Result<AssetModel, Error>)
      modifies this
      ensures r == old(Reply(describedModel(|log|, modelId)))
      ensures log == old(log) + [DescribeAssetModelCall(modelId, r)]
    {
      r := Reply(describedModel(|log|, modelId));
      log := log + [DescribeAssetModelCall(modelId, r)];
    }

    method DescribeAsset(assetId: string) returns (r: Result<Asset, Error>)
      modifies this
      ensures r == old(Reply(describedAsset(|log|, assetId)))
      ensures log == old(log) + [DescribeAssetCall(assetId, r)]
    {
      r := Reply(describedAsset(|log|, assetId));
      log := log + [DescribeAssetCall(assetId, r)];
    }

    method CreateAssetModel(name: string, definitions: seq<Definition>) returns (r: Result<string, Error>)
      modifies this
      ensures r == old(Reply(newId(|log|)))
      ensures log == old(log) + [CreateAssetModelCall(name, definitions, r)]
    {
      r := Reply(newId(|log|));
      log := log + [CreateAssetModelCall(name, definitions, r)];
    }

    method UpdateAssetModel(update: ModelUpdate) returns (r: Option<Error>)
      modifies this
      ensures r == old(Outcome())
      ensures log == old(log) + [UpdateAssetModelCall(update, r)]
    {
      r := Outcome();
      log := log + [UpdateAssetModelCall(update, r)];
    }

    method CreateAsset(name: string, modelId: string, externalId: string) returns (r: Result<string, Error>)
      modifies this
      ensures r == old(Reply(newId(|log|)))
      ensures log == old(log) + [CreateAssetCall(name, modelId, externalId, r)]
    {
      r := Reply(newId(|log|));
      log := log + [CreateAssetCall(name, modelId, externalId, r)];
    }

    method UpdateAssetProperty(assetId: string, propertyId: string, alias: string) returns (r: Option<Error>)
      modifies this
      ensures r == old(Outcome())
      ensures log == old(log) + [UpdateAssetPropertyCall(assetId, propertyId, alias, r)]
    {
      r := Outcome();
      log := log + [UpdateAssetPropertyCall(assetId, propertyId, alias, r)];
    }

    method BatchPutAssetPropertyValue(entries: seq<Entry>) returns (r: Result<seq<string>, Error>)
      modifies this
      ensures r == old(Reply(rejectedEntries(|log|)))
      ensures log == old(log) + [BatchPutCall(entries, r)]
    {
      r := Reply(rejectedEntries(|log|));
      log := log + [BatchPutCall(entries, r)];
    }
  }
}
