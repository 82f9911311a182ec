# Arduino IoT Cloud to AWS IoT SiteWise importer, modelled in Dafny

The importer is an AWS Lambda function. On every scheduled run it copies the
things of an Arduino IoT Cloud organisation into AWS IoT SiteWise and then
exports their recent samples. It has five parts:

- **Entity alignment** (`business/entityalign/align.go`).
  - Every thing gets a SiteWise asset model keyed by the sorted, comma-joined
    names of its typed properties.
  - Models that already exist are reused. They are extended when a thing has
    properties they lack, and they are found through the assets that point
    at them.
  - A thing without a matching model gets a new one, under the first free
    name among `Thing Model from (<thing name>)`, then
    `Thing Model from (<thing name>) - 1`, `- 2`, …
  - Every thing gets an asset whose external id is the thing id, and every
    property gets the alias `/thingId/propertyName`.
- **The SiteWise client** (`internal/sitewiseclient/client.go`).
  - It maps property types to SiteWise data types and builds model
    definitions with units.
  - It writes the union of property sets into a model and sets aliases on
    asset properties.
  - It polls for the ACTIVE state.
  - It turns samples into `BatchPutAssetPropertyValue` requests of at most
    ten entries.
- **Time-series export** (`business/tsalign/tsalign.go`).
  - It aligns an extraction window to the sampling resolution.
  - For each exported asset it splits the thing's properties into numeric
    ones (aggregated series) and string ones (sampled series).
  - It fetches both kinds from the IoT API with retries on rate limiting.
  - It writes the samples in pieces of ten points.
- **Parameters** (`internal/parameters/params.go`).
  - Settings live in the AWS Systems Manager parameter store, under names
    that contain the placeholder `<stack-name>`.
  - A stored `<empty>` means the empty string.
- **The handler** (`lambda.go`) and tag parsing (`internal/utils/util.go`).
  - The handler reads credentials and options, decides whether entities
    need aligning, runs the import and records the time of the last entity
    sync.

How the model is built:

- Entity values (things, models, assets, samples, requests) are datatypes.
- The SiteWise service, the IoT API and the parameter store are classes that
  keep a log of every request with its reply. The replies come from oracle
  functions indexed by the position of the request in the log. The proved
  contracts describe what each operation appends to the log.
- Go's in-place loops are `while` loops with invariants. They are proved
  against specification functions, such as the batches a series is cut
  into or the key of a property set.
- Go's `int64`, `int32` and bit-level float values are modelled explicitly.
  So are its string functions: `strings.Split`, `Join`, `TrimSpace`,
  `ReplaceAll`, `strconv.Itoa` and `ParseInt`, and `ToUpper` on ASCII
  letters.

## Model

| member | source | states |
|---|---|---|
| GoStrings.SplitJoin | business/entityalign/align.go:366-373 | splitting a comma-joined list of comma-free names gives the names back (splitKey inverts buildKey) |
| GoStrings.JoinSplit | business/entityalign/align.go:366-373 | joining the pieces of a split string restores the string |
| GoStrings.SortPermutes | business/entityalign/align.go:367 | sort.Strings keeps the same names, as a multiset |
| GoStrings.SortSorted | business/entityalign/align.go:367 | sort.Strings leaves the names in byte-lexicographic order |
| GoStrings.SortCanonical | business/entityalign/align.go:367 | two listings of the same names sort to the same sequence |
| GoStrings.TrimSpaceIdempotent | internal/utils/util.go:23 | trimming an already trimmed key or value changes nothing |
| GoStrings.ToUpperIdempotent | internal/sitewiseclient/client.go:191 | upper-casing a type name twice is the same as once |
| GoStrings.ParseInt64OfItoa | lambda.go:157 | the recorded sync time, written with Itoa, parses back to the same int64 |
| GoStrings.NatToStringInjective | business/entityalign/align.go:271 | different increments give different decimal suffixes |
| Collections.LastWinsDomain | internal/utils/util.go:23 | a map filled by successive assignments has exactly the keys assigned, each with a value assigned to it, and no more entries than assignments |
| Collections.LastWinsValue | internal/utils/util.go:23 | a key assigned for the last time at position i holds the value assigned there |
| Batching.FlattenChunks | business/tsalign/tsalign.go:239-255 | concatenating the pieces of ten gives back the whole sequence |
| Batching.ChunkCount | business/tsalign/tsalign.go:239-255 | a sequence of n elements is cut into ceil(n/10) pieces |
| Batching.ChunkAt | business/tsalign/tsalign.go:239-255 | piece k is elements 10k up to min(10k+10, n) |
| Batching.ChunkSizeExamples | business/tsalign/tsalign_test.go:34-57 | 10 elements give one piece, 35 give four with a last piece of 5, 60 give six |
| Samples.ToInt32 | internal/sitewiseclient/client.go:466 | the int32 conversion keeps values in range and otherwise wraps modulo 2^32 |
| SchemaKey.BuildKeyIgnoresOrder | business/entityalign/align.go:366-369 | the key of a name list does not depend on the order of the names |
| SchemaKey.BuildKeyOfListing | business/entityalign/align.go:366-369 | any duplicate-free listing of a name set gives that set's key |
| SchemaKey.BuildKeyNames | business/entityalign/align.go:366-373 | splitting the key of separator-free names gives back exactly those names |
| SchemaKey.KeyOfNames | business/entityalign/align.go:366-373 | the names read back from the key of a set are that set |
| SchemaKey.KeyOfInjective | business/entityalign/align.go:366-369 | two non-empty name sets have the same key exactly when they are equal |
| SchemaKey.ModelKeyFromMapNames | business/entityalign/align.go:375-383 | the key of a property map names exactly the properties with a non-empty type |
| SchemaKey.ModelKeyFromMapOfAnyOrder | business/entityalign/align.go:375-383 | whichever order Go ranges over the map in, the key is the same |
| SchemaKey.MeasurementNames | business/entityalign/align.go:353-359 | the collected names are exactly those of the model's named Measurement properties |
| SchemaKey.BuildModelKeyFromModel | business/entityalign/align.go:353-364 | a model has no key exactly when none of its properties is a named Measurement |
| SchemaKey.ModelKeyNames | business/entityalign/align.go:353-364 | a model's key names exactly its named Measurement properties |
| SchemaKey.PropertyTypesFacts | business/entityalign/align.go:398-404 | the property map has one entry per property name, and a name's type is that of its last property |
| SchemaKey.IsThingContainedInModel | business/entityalign/align.go:406-415 | a thing is contained in a model exactly when every name in the thing key is in the model key |
| SchemaKey.ContainedIffSubset | business/entityalign/align.go:406-415 | for keys built from name sets, containment is set inclusion |
| SchemaKey.ContainmentExamples | business/entityalign/align.go:406-415 | a key contains itself; "a,b,c" contains "a,b"; "a,b" does not contain "a,b,c" |
| SchemaKey.ComposeModelNameInjective | business/entityalign/align.go:267-273 | different attempt numbers give different model names |
| SchemaKey.PropertyAliasInjective | business/entityalign/align.go:275-277 | for slash-free thing ids, equal aliases mean equal thing and property |
| EntityAlign.ThingsByIdFacts | business/entityalign/align.go:390-396 | the thing map holds exactly the listed ids, each mapped to a listed thing with that id |
| EntityAlign.ToThingMap | business/entityalign/align.go:390-396 | the loop builds the thing map by id |
| EntityAlign.ThingPropertiesMap | business/entityalign/align.go:398-404 | the loop builds the name-to-type map of the thing's properties |
| EntityAlign.AliasesFor | business/entityalign/align.go:192-197 | the alias map has an entry `/thingId/name` for every property name, typed or not |
| EntityAlign.AliasesDistinct | business/entityalign/align.go:195-196 | two properties of slash-free things share an alias only when they are the same property of the same thing |
| EntityAlign.PropertyMaps | business/entityalign/align.go:192-197 | the loop builds the type map and the alias map together |
| EntityAlign.ExtractUomMapByName | business/entityalign/align.go:417-425 | as written: the units of every catalogue entry that has units, keyed by display name |
| EntityAlign.UnitsByNameMissTypeCodes | business/entityalign/align.go:417-425 | with display names as keys, a lookup by type code finds no unit where a lookup keyed by code does |
| EntityAlign.UnitsByTypeLookup | internal/sitewiseclient/client.go:207-211 | with units keyed by type code, a definition gets the first unit of its type, or none |
| EntityAlign.ExtractUomMap | business/entityalign/align.go:417-425 | the loop builds the units map keyed by type code |
| EntityAlign.ModelKey | business/entityalign/align.go:342-346 | the key under which a described model is indexed is its Measurement key |
| EntityAlign.KeyedModelsSound | business/entityalign/align.go:342-346 | every (key, id) index entry comes from a described model with that key |
| EntityAlign.KeyedModelsComplete | business/entityalign/align.go:342-346 | every described model with a key contributes its entry |
| EntityAlign.ModelIndexSound | business/entityalign/align.go:342-346 | every key in the model index maps to a described model with that key |
| EntityAlign.ModelIndexComplete | business/entityalign/align.go:342-346 | the key of every described model that has one is in the index |
| EntityAlign.DefinitionsOfDescribed | business/entityalign/align.go:340 | the definitions map holds exactly the described model ids |
| EntityAlign.IndexedAssetsFacts | business/entityalign/align.go:303-311 | each indexed asset is stored under its thing id and records the model it was listed under |
| EntityAlign.IndexedAssetPosition | business/entityalign/align.go:303-311 | every listed asset with an external id is indexed |
| EntityAlign.IndexedAssetsAppend | business/entityalign/align.go:291-311 | indexing page by page is the same as indexing the whole listing |
| EntityAlign.AssetsOfModelsFacts | business/entityalign/align.go:288-313 | every discovered asset is keyed by its thing id and belongs to one of the visited models |
| EntityAlign.DiscoveredAssetsFacts | business/entityalign/align.go:288-313 | every entry of the asset map is keyed by its thing id and names a visited model |
| EntityAlign.DiscoveredAssetsCover | business/entityalign/align.go:288-313 | every asset with an external id, listed under a visited model, is in the asset map |
| EntityAlign.AddAssets | business/entityalign/align.go:303-311 | the loop adds one page of assets to the map, later entries winning |
| EntityAlign.IndexModel | business/entityalign/align.go:340-347 | indexing one more described model keeps the index equal to the index of all described models |
| EntityAlign.Reconcile | business/entityalign/align.go:95-132 | an asset's model is adopted only when thing and model are known, the thing key is non-empty, and the model has a key different from it |
| EntityAlign.ReconcileUpdates | business/entityalign/align.go:117-129 | an adopted model is updated exactly when the thing has a typed property that is not among the model's Measurements |
| EntityAlign.ErrorsOf | business/entityalign/align.go:253-262 | the collected errors are empty exactly when every per-thing task succeeded |
| EntityAlign.Aligner.DescribeNext | business/entityalign/align.go:336-346 | one describe call is logged, and on success the index and definitions cover the described models |
| EntityAlign.Aligner.DescribePage | business/entityalign/align.go:335-348 | a page is described model by model, in order; the first failed describe ends it with that error |
| EntityAlign.Aligner.GetSiteWiseModels | business/entityalign/align.go:317-351 | on success every listed model, over all pages, was described in order and indexed; an error is that of the last call |
| EntityAlign.Aligner.ListModelAssets | business/entityalign/align.go:289-312 | on success the asset map gains every asset of the model, over all pages; an error is that of the last call |
| EntityAlign.Aligner.GetSiteWiseAssets | business/entityalign/align.go:285-315 | on success each model id in the index is visited once and the asset map is built from their listings |
| EntityAlign.Aligner.UpdateModel | business/entityalign/align.go:122-128 | when the thing has properties the model lacks, the first call is an update to the union of both property sets, and a failed update ends the calls; otherwise only the describes of the wait follow |
| EntityAlign.Aligner.ReconcileAsset | business/entityalign/align.go:96-132 | an asset whose decision asks for an update gets that update; any other asset (unknown thing or model, equal keys, a contained thing) makes no call |
| EntityAlign.Aligner.VisitAsset | business/entityalign/align.go:96-132 | one asset more is visited, with its calls, and unless its update failed its model is adopted under the thing key |
| EntityAlign.Aligner.VisitAssets | business/entityalign/align.go:95-140 | the distinct assets are visited in some order, each with exactly its own calls; without error all are visited; the index is the adoptions of the assets visited before any failure |
| EntityAlign.Aligner.AlignAlreadyCreatedModels | business/entityalign/align.go:87-141 | the calls are, asset by asset, the update of each model that needs one and nothing for the others; the index is the adoptions in visiting order; existing entries are kept unless adopted; without error every adopted thing key is indexed |
| EntityAlign.AdoptionsKeep | business/entityalign/align.go:131 | a key no visited asset adopts keeps its original entry or absence |
| EntityAlign.AdoptionsLatest | business/entityalign/align.go:131 | under an adopted key the index holds the model id of the last asset that adopted it |
| EntityAlign.AdoptionsFrom | business/entityalign/align.go:131 | every entry of the index is an original one or an adoption by some asset |
| EntityAlign.AdoptionsCover | business/entityalign/align.go:131 | the thing key of every adopting asset is indexed |
| EntityAlign.NoUpdateNoCalls | business/entityalign/align.go:96-132 | when no asset's model needs an update (for instance with no assets at all) the pass makes no SiteWise call and returns no error |
| EntityAlign.Aligner.AwaitModel | business/entityalign/align.go:177 | polling the new model makes at most five describe calls, all for that model |
| EntityAlign.Aligner.AwaitAsset | business/entityalign/align.go:236 | polling the new asset makes at most ten describe calls, all for that asset |
| EntityAlign.Aligner.CreateModel | business/entityalign/align.go:161-174 | attempts are made under the names `Thing Model from (<thing name>)`, then the same followed by ` - 1`, ` - 2`, … while each name is taken, up to 100; success is the first creation that is not a conflict |
| EntityAlign.Aligner.CreateActiveModel | business/entityalign/align.go:156-178 | the first attempt uses the thing's name and exact definitions; a success is the id of a logged creation |
| EntityAlign.Aligner.EnsureModel | business/entityalign/align.go:146-179 | a known key makes no call; otherwise a model with the thing's definitions is created and indexed under the key, keeping every other entry |
| EntityAlign.Aligner.EnsureNext | business/entityalign/align.go:145-182 | one thing more is handled with its calls; a new entry is a model created among them; the index keeps every entry |
| EntityAlign.Aligner.AlignModels | business/entityalign/align.go:143-184 | each visited thing makes no call when its key is indexed already (originally or by an earlier thing), and otherwise starts creating a model with its definitions under its own name; every new entry is the id of a successful creation for a thing with that key; without error the index covers every thing's key; existing entries never change |
| EntityAlign.OneCreationPerKey | business/entityalign/align.go:145-150 | a thing whose key an earlier thing already had makes no call, so at most one model is created per key |
| EntityAlign.Aligner.AlignAsset | business/entityalign/align.go:191-244 | a thing without a model makes no call; otherwise it reuses its existing asset, or creates one under that model with its id as external id and waits for it; then every property whose alias is not yet `/thingId/propertyName` on that asset gets it, stopping at the first failed write |
| EntityAlign.AssetAlignedCreated | business/entityalign/align.go:226-243 | a created asset, the wait for it and the alias update on its id together align the thing |
| EntityAlign.Aligner.WriteAliases | business/entityalign/align.go:239-243 | the asset is described; a failed describe ends it; otherwise the pending aliases are written, each to its property; no error means every write succeeded and every pending alias was written |
| EntityAlign.Aligner.AlignAssets | business/entityalign/align.go:186-265 | every thing is aligned in order, and the returned errors are exactly the failed tasks' errors |
| EntityAlign.Aligner.Align | business/entityalign/align.go:50-85 | a run without errors leaves a model indexed for every thing's key |
| SiteWiseClient.MapType | internal/sitewiseclient/client.go:190-200 | a type is DOUBLE exactly when its upper-cased name is numeric or boolean, and STRING otherwise |
| SiteWiseClient.MapTypeIgnoresCase | internal/sitewiseclient/client.go:191 | the mapping does not depend on the case of the type name |
| SiteWiseClient.UnionUpdateNames | internal/sitewiseclient/client.go:284-324 | an update leaves the model with the names of its own properties plus all the thing's properties |
| SiteWiseClient.UnionUpdateSettles | internal/sitewiseclient/client.go:284-334 | after the update, no thing property is missing from the model |
| SiteWiseClient.BuildDefinitions | internal/sitewiseclient/client.go:203-220 | one Measurement definition per thing property, with the mapped type and the unit for its type code |
| SiteWiseClient.PropertyNames | internal/sitewiseclient/client.go:295-298 | the loop collects the names of the model's properties |
| SiteWiseClient.MissingProperties | internal/sitewiseclient/client.go:300-324 | exactly one new Measurement per thing property the model lacks |
| SiteWiseClient.AliasUpdateSettles | internal/sitewiseclient/client.go:355-375 | once the aliases are written, no property is left whose alias differs |
| SiteWiseClient.InterfaceToStringReadBack | internal/sitewiseclient/client.go:427-446 | strings are written as they are, integers parse back to themselves, and a bool gives "true" exactly when true |
| SiteWiseClient.SeriesPoints | internal/sitewiseclient/client.go:390-400 | one double point per timestamp, at that timestamp, with its value |
| SiteWiseClient.SampledVariant | internal/sitewiseclient/client.go:459-476 | a boolean sample is not written by the sampled writer |
| SiteWiseClient.SampledPointsAppend | internal/sitewiseclient/client.go:459-485 | writing a sampled series in consecutive pieces writes the same points as writing it at once |
| SiteWiseClient.SampledPointsAllSupported | internal/sitewiseclient/client.go:459-485 | when every value is of a supported type, each timestamp gets exactly its own value |
| SiteWiseClient.ArbitraryVariant | internal/sitewiseclient/client.go:527-558 | booleans become 1.0 or 0.0, and only unknown types are dropped |
| SiteWiseClient.SupportedPrefix | internal/sitewiseclient/client.go:526-558 | the pairs of a prefix of the points are a prefix of the pairs |
| SiteWiseClient.ArbitraryBatchesFacts | internal/sitewiseclient/client.go:518-619 | ceil(n/10) requests, entries numbered from "1" in each request, and all supported points in order |
| SiteWiseClient.FullBatch | internal/sitewiseclient/client.go:577-596 | the batch flushed when ten entries are collected is the next planned request |
| SiteWiseClient.LastBatch | internal/sitewiseclient/client.go:599-616 | the final flush sends the remaining points as the last planned request, or nothing when none remain |
| SiteWiseClient.Client.CreateAssetModel | internal/sitewiseclient/client.go:202-225 | one creation request under the given name, with exactly the thing's definitions; the reply is returned |
| SiteWiseClient.Client.UpdateAssetModelProperties | internal/sitewiseclient/client.go:284-334 | no request when nothing is missing; otherwise one union update, whose error is returned |
| SiteWiseClient.Client.IndexByName | internal/sitewiseclient/client.go:347-353 | the loop indexes the asset's properties by name |
| SiteWiseClient.Client.UpdateAssetProperties | internal/sitewiseclient/client.go:342-377 | the asset is described first; a failed describe is returned; otherwise every property whose alias differs is written, stopping at the first failed write, whose error is returned; no error means every write succeeded |
| SiteWiseClient.Client.WriteAliases | internal/sitewiseclient/client.go:355-376 | one alias write per property whose alias differs, stopping at the first failure, whose error is returned; no error means every write succeeded |
| SiteWiseClient.Client.PollForModelActiveStatus | internal/sitewiseclient/client.go:241-257 | at most maxRetry describes of the model; true exactly when the last one saw it ACTIVE; an early stop without ACTIVE is a failed describe |
| SiteWiseClient.Client.PollForAssetActiveStatus | internal/sitewiseclient/client.go:266-282 | the same for an asset |
| SiteWiseClient.Client.PopulateTimeSeriesByAlias | internal/sitewiseclient/client.go:379-425 | mismatched or empty input is rejected with no request; otherwise one entry with all points, and the write's error is returned |
| SiteWiseClient.Client.PopulateSampledSamplesTimeSeriesByAlias | internal/sitewiseclient/client.go:448-510 | the same, with the sampled points (unsupported values skipped) |
| SiteWiseClient.Client.SendBatch | internal/sitewiseclient/client.go:578-583 | sending the next planned request either extends the successful prefix or ends the write with its error |
| SiteWiseClient.Client.AcceptPoint | internal/sitewiseclient/client.go:526-597 | taking one more point keeps the pending entries and sent requests in line with the planned batches |
| SiteWiseClient.Client.PopulateArbitrarySamplesByAlias | internal/sitewiseclient/client.go:518-619 | no points is an error with no request; otherwise the planned batches go out in order, stopping at the first failure, whose error is returned |
| IotApi.Outcome | internal/iot/client.go:118-126 | a reply is retried exactly when rate-limited, and carries data exactly when it has no error |
| IotApi.PropertyQueries | internal/iot/client.go:138-145 | one query "property.<id>" per property id, in order |
| IotApi.IotClient.GetTimeSeriesByThing | internal/iot/client.go:89-127 | an empty thing id is an error with no request; otherwise one logged query with the service's reply |
| IotApi.IotClient.GetTimeSeriesSampling | internal/iot/client.go:129-166 | no property ids is an error with no request; otherwise one logged query for their property queries |
| TsAlign.TimeAlignmentBounds | business/tsalign/tsalign.go:154-166 | the window ends at now rounded down to a multiple of the resolution (at least 300 s) counted from Go's zero time, minus 300 s for resolutions up to 900 s, and spans the given minutes |
| TsAlign.TimeAlignmentLatest | business/tsalign/tsalign.go:159 | the rounded end is the latest multiple of the resolution, counted from the zero time, not after now |
| TsAlign.TimeAlignmentOnUnixGrid | business/tsalign/tsalign.go:156-159 | for the resolutions the handler produces (60, 300, 900, 3600 s) the rounded end is also a multiple of the resolution in Unix seconds |
| TsAlign.PlannedChunksAreBatches | business/tsalign/tsalign.go:237-257 | the times and values of the partition are the pieces of ten of the times and values |
| TsAlign.PlannedChunksFacts | business/tsalign/tsalign.go:237-257 | ceil(n/10) partitions, all but the last full, whose times and values concatenate back to the response |
| TsAlign.PartitionExamples | business/tsalign/tsalign_test.go:34-57 | 10 samples give 1 partition, 35 give 4 with 5 in the last, 60 give 6 |
| TsAlign.Partition | business/tsalign/tsalign.go:237-257 | the loop builds the planned partition |
| TsAlign.PartitionResults | business/tsalign/tsalign.go:237-257 | the aggregated response is cut into the planned partition |
| TsAlign.PartitionSampledResults | business/tsalign/tsalign.go:326-346 | the sampled response is cut into the planned partition |
| TsAlign.NamedIff | business/tsalign/tsalign.go:138-149 | the thing properties matched by a name are exactly those with that name |
| TsAlign.MatchedIff | business/tsalign/tsalign.go:138-149 | the matched properties are exactly those named like some asset property |
| TsAlign.BucketIff | business/tsalign/tsalign.go:142-146 | a matched property goes to the sampled list exactly when its type is a string type |
| TsAlign.AliasPairsFacts | business/tsalign/tsalign.go:147 | each matched property is mapped to its alias /thingId/name |
| TsAlign.ImportBuckets | business/tsalign/tsalign.go:134-152 | a property is imported as numeric, as string, and aliased exactly when the asset has its name (and by its type) |
| TsAlign.ImportAliasKeys | business/tsalign/tsalign.go:134-152 | every aliased id is the id of a thing property |
| TsAlign.MapPropertiesToImport | business/tsalign/tsalign.go:134-152 | the nested loop computes the import plan |
| TsAlign.MatchName | business/tsalign/tsalign.go:139-149 | matching one more asset property name extends the lists and the alias map accordingly |
| TsAlign.ResponseIdOfQuery | business/tsalign/tsalign.go:208 | stripping "property." from a query gives back the property id |
| TsAlign.QueriesAnswerIds | business/tsalign/tsalign.go:208 | every property query leads back to its own id |
| TsAlign.Target | business/tsalign/tsalign.go:203-217 | a response is written exactly when it has values and its id is requested and has a non-empty alias, and it is written to that alias |
| TsAlign.SeriesWrites | business/tsalign/tsalign.go:219-226 | each aggregated request is one entry "1" of at most ten points, and together they write every point of the response |
| TsAlign.SampledWrites | business/tsalign/tsalign.go:308-315 | each sampled request is one entry "1" of at most ten points, and together they write every supported point |
| TsAlign.SwallowedPushError | business/tsalign/tsalign.go:222-225 | as written: a write that fails on its first of two requests is a failed export, yet the function returns the nil fetch error |
| TsAlign.ExportIdsIff | business/tsalign/tsalign.go:75-85 | an asset is exported exactly when its external id names a known thing |
| TsAlign.TsAligner.FetchSeries | business/tsalign/tsalign.go:190-202 | the aggregated fetch is retried while rate-limited, up to five identical queries, and returns the last reply |
| TsAlign.TsAligner.FetchSampled | business/tsalign/tsalign.go:278-291 | the same for the sampled fetch |
| TsAlign.TsAligner.PushSeriesChunks | business/tsalign/tsalign.go:220-226 | the partitions are written in order, stopping at the first failure |
| TsAlign.TsAligner.PushSampledChunks | business/tsalign/tsalign.go:309-315 | the same for sampled partitions |
| TsAlign.TsAligner.PushSeriesResponse | business/tsalign/tsalign.go:203-226 | one response's planned requests are sent in order, stopping at the first failure |
| TsAlign.TsAligner.PushSeries | business/tsalign/tsalign.go:203-228 | all responses' planned requests are sent in order, stopping at the first failure |
| TsAlign.TsAligner.PushSampledResponse | business/tsalign/tsalign.go:292-315 | the same for one sampled response |
| TsAlign.TsAligner.PushSampled | business/tsalign/tsalign.go:292-317 | the same for all sampled responses |
| TsAlign.TsAligner.PopulateTSData | business/tsalign/tsalign.go:179-229 | a failed fetch is returned with no write; otherwise the planned requests go out in order and the first write error is returned |
| TsAlign.TsAligner.PopulateTSDataAsWritten | business/tsalign/tsalign.go:222-225 | as written: the calls are the same, but the fetch error is returned, so a failed write reports success |
| TsAlign.TsAligner.PopulateCharTSData | business/tsalign/tsalign.go:267-318 | the same as PopulateTSData, for string properties |
| TsAlign.TsAligner.PopulateCharTSDataAsWritten | business/tsalign/tsalign.go:311-314 | as written: the sampled write's error is lost in the same way |
| TsAlign.TsAligner.ExportProperties | business/tsalign/tsalign.go:102-116 | numeric properties are exported first; string properties only when the numeric export succeeded; with nothing to import, no call |
| TsAlign.TsAligner.ExportAsset | business/tsalign/tsalign.go:90-118 | the asset is described first; a failed describe is returned with nothing else; with nothing to import, nothing more happens |
| TsAlign.TsAligner.ExportDescribed | business/tsalign/tsalign.go:100-116 | only writes are made, and none when nothing is to be imported |
| TsAlign.TsAligner.ExportPage | business/tsalign/tsalign.go:75-119 | exactly the assets whose external id names a known thing are described, in order |
| TsAlign.TsAligner.ExportModelAssets | business/tsalign/tsalign.go:66-125 | on success, over all pages, exactly the exportable assets of the model are described; an error is that of a listing |
| TsAlign.TsAligner.AlignTimeSeriesSamples | business/tsalign/tsalign.go:50-132 | only the first page of models is listed; a failed listing is returned; otherwise the exportable assets of those models are described in order |
| Utils.TagOfPair | internal/utils/util.go:21-23 | "key=value" with no other '=' gives the trimmed key and value |
| Utils.TagShape | internal/utils/util.go:21-23 | only segments of the form non-empty "key=value" with one '=' give a tag |
| Utils.ParseTags | internal/utils/util.go:13-27 | the loop builds the tag map of the comma-separated string |
| Utils.TagPairsFromSegments | internal/utils/util.go:19-25 | every parsed pair comes from some segment |
| Utils.SegmentsGiveTagPairs | internal/utils/util.go:19-25 | every well-formed segment gives a parsed pair |
| Utils.KeysFromSegments | internal/utils/util.go:19-25 | the key of every well-formed segment is in the map |
| Utils.EntriesFromSegments | internal/utils/util.go:19-25 | every map entry is the pair of some segment |
| Utils.TagMapKeys | internal/utils/util.go:13-27 | for a non-empty string, every well-formed segment's key is in the tag map |
| Utils.TagMapSize | internal/utils/util.go:13-27 | there are no more tags than comma-separated segments |
| Utils.TagMapTrimmed | internal/utils/util.go:23 | every key and value in the map is free of surrounding white space |
| Utils.ParseFormatted | internal/utils/util.go:13-27 | formatting trimmed, non-empty, comma- and '='-free pairs as "k=v,…" and parsing back gives their map, later pairs winning |
| Parameters.ResolveWithoutPlaceholder | internal/parameters/params.go:53-55 | a name without the placeholder is used as it is |
| Parameters.ResolveOccurrence | internal/parameters/params.go:53-55 | the first placeholder is replaced by the stack name, and the rest is resolved the same way |
| Parameters.ResolveSingle | internal/parameters/params.go:53-55 | a name with one placeholder and no other '<' holds the stack name in its place |
| Parameters.Normalise | internal/parameters/params.go:66-71 | a missing value or "<empty>" reads as the empty string; anything else is kept |
| Parameters.NormaliseIdempotent | internal/parameters/params.go:66-71 | normalising a normalised value changes nothing |
| Parameters.ConfigValue | internal/parameters/params.go:63-71 | a failed read is an error with the same cause; a successful one gives the normalised value |
| Parameters.ReadValue | internal/parameters/params.go:63-71 | a read hands back a value exactly when it succeeded, and that value is normalised |
| Parameters.ReadBackWritten | internal/parameters/params.go:57-84 | a value written under a name is read back as that value, normalised |
| Parameters.ParametersClient.ReadConfig | internal/parameters/params.go:57-72 | one read under the resolved name; the store is unchanged; the result is the normalised value or the error |
| Parameters.ParametersClient.UpdateParameterValue | internal/parameters/params.go:74-84 | one overwrite under the resolved name; on success the store holds the value there |
| Lambda.ResolveArduinoName | lambda.go:36-43 | every parameter name resolves to /arduino/sitewise-importer/<stack> followed by its suffix |
| Lambda.ResolvedReadOrder | lambda.go:36-43 | the api-key, last-sync and resolution names resolve to their full paths |
| Lambda.ResolutionFromLabel | lambda.go:84-94 | the resolution is 60, 300, 900 or 3600 seconds, by label, 300 for any other label |
| Lambda.ResolutionCheck | lambda.go:95-102 | a resolution is rejected exactly when it is outside 60..3600 seconds |
| Lambda.LabelledResolutionAccepted | lambda.go:84-102 | no label gives a resolution the check rejects |
| Lambda.WindowFromLabel | lambda.go:175-183 | the window is 5, 15, 60 minutes by label, 30 for any other label |
| Lambda.WrapInt64 | lambda.go:114 | an int64 subtraction keeps in-range results and otherwise wraps modulo 2^64 |
| Lambda.ShouldAlignEntities | lambda.go:109-120 | entities are aligned when no last sync is recorded or it does not parse; for any value that parses (leading zeros or a future time included) they are aligned exactly when at least 55 minutes have elapsed, when the difference fits in int64 |
| Lambda.AlignAfterRecordedSync | lambda.go:109-120 | after a recorded sync, entities are aligned exactly when at least 55 minutes have passed |
| Lambda.ConfigureDataExtractionTimeWindow | lambda.go:167-185 | one read of the scheduling parameter; a failure gives -1 and the error, otherwise the window of its label |
| Lambda.Text | lambda.go:68-72 | a read value is used as it is, and a failed read counts as empty |
| Lambda.SettingsOf | lambda.go:60-120 | the settings' resolution is always one of the four supported values |
| Lambda.ReadCredentials | lambda.go:60-75 | key, secret and organisation are read in this order, and the store is unchanged |
| Lambda.ReadOptions | lambda.go:76-120 | tags, resolution, scheduling and last sync are read in order; a failed resolution or scheduling read ends the reading with its error |
| Lambda.ReadSettings | lambda.go:60-120 | a missing key or secret stops after three reads; failed option reads are returned; a full read gives the settings of the seven replies; there are never exactly four reads, and the stored parameters are unchanged |
| Lambda.HandleRequest | lambda.go:48-165 | settings are read in order (never exactly four reads); the first connect or import error is returned; on success the sync time is recorded exactly when entities were aligned; the stored parameters are unchanged except for that sync time, which is stored when its write succeeds |

## Left out

- Concurrency. The goroutines of entity alignment (limit 6) and of the export (limit 10) run one after another here. The order in which errors arrive on the error channels is not modelled.
- Logging, sleeps between polls and retries, and the random sleep after a rate-limited request are not modelled.
- EntityAlign.Aligner.CreateModel: after 100 taken names the Go code dereferences a nil model id. The model returns a ModelNameExhausted error in its place.
- The clock is whole Unix seconds: `time.Now()`'s fraction of a second is dropped before rounding, which does not change the rounded end for whole-second resolutions.
- IotApi.IotClient.GetTimeSeriesByThing, IotApi.IotClient.GetTimeSeriesSampling: obtaining the OAuth token (`ctxWithToken`, internal/iot/client.go:94-97 and 131-134) is assumed to succeed. In Go a token failure returns that error with no request. In the sampled query the token is fetched before the empty-list check, so with both failures Go returns the token error.
- The IoT replies are assumed to carry at least as many values as timestamps (`IotClient.WellFormed`). In Go, fewer values would make the slicing panic.
- The thing id argument of populateCharTSDataIntoSiteWise is used only for logging, so TsAlign.TsAligner.PopulateCharTSData omits it.
- Lambda.ReadOptions: when the resolution read fails, Go dereferences a nil value. The model returns the read's error.
- Lambda.HandleRequest: the resolution validation (lambda.go:95-102) cannot reject a resolution the switch produces (Lambda.LabelledResolutionAccepted), so the handler omits it.
- Loading the AWS configuration in parameters.New and the DEV environment variable are not modelled. app/align/aligner.go is not part of this model: the handler takes the IoT connection and the import run as function parameters.
- `json.Marshal` of map samples and `strconv.FormatFloat` are opaque values. They are a payload string and a formatter parameter.
- The IoT type classifiers (number, bool, string and location types) are a TypeCatalog parameter. The IoT API's property-type listing is an input.
- The modelled parameter store always replies with a value. ReadConfig reads a nil value as empty; Parameters.Normalise covers that case, but the store never produces it.
- TsAlign.TsAligner.ExportProperties uses the corrected populate functions (see Findings). After a failed numeric export the string export is skipped. With the code as written, it would have gone on.
- EntityAlign.Aligner.Align: states only that a run without errors leaves a model indexed for every thing's key. The per-thing asset outcome is stated by EntityAlign.Aligner.AlignAssets.
- EntityAlign.Aligner.Align: uses the corrected units map (EntityAlign.ExtractUomMap, keyed by type code) where align.go:53 calls extractUomMap, which keys units by display name (EntityAlign.ExtractUomMapByName); see Findings.
- GoStrings.ToUpper: upper-cases ASCII letters only, where Go's strings.ToUpper maps every Unicode letter; SiteWiseClient.MapType is therefore exact only for type names in ASCII.
- EntityAlign.Aligner.AwaitModel: states only how many calls are made and what they are. Whether the model became ACTIVE is ignored, as in the source.
- EntityAlign.Aligner.AwaitAsset: the same as AwaitModel, for assets.
- TsAlign.TsAligner.ExportAsset: states the describe and the cases with nothing to import. The export calls are stated by TsAlign.TsAligner.ExportProperties.
- TsAlign.TsAligner.ExportDescribed: states only that it makes writes, and none when nothing is to be imported.
- SiteWiseClient.SampledVariant: states only that booleans are skipped. The conversions of the other kinds are stated by SiteWiseClient.SampledPointsAllSupported.
- Lambda.SettingsOf: states only the range of the resolution. The reads it is built from are stated by Lambda.ReadSettings.

## Findings

| source | as written | input that shows it | evidently intended | confidence | as-written member | corrected member |
|---|---|---|---|---|---|---|
| business/entityalign/align.go:417-425 | the units map is keyed by the type's display name, but client.go:207-211 looks it up by type code | a catalogue entry with code TEMPERATURE_C, name Temperature and unit C: the definition for TEMPERATURE_C gets no unit | the units map is keyed by type code | not executed | EntityAlign.ExtractUomMapByName | EntityAlign.ExtractUomMap |
| business/tsalign/tsalign.go:222-225 | a failed BatchPutAssetPropertyValue ends the loop with `return err`, where err is the nil fetch error | a response whose first write fails: the rest is not sent and the function reports success | return the write's error | not executed | TsAlign.TsAligner.PopulateTSDataAsWritten | TsAlign.TsAligner.PopulateTSData |
| business/tsalign/tsalign.go:311-314 | a failed sampled BatchPutAssetPropertyValue ends the loop with `return err`, where err is the nil fetch error | a sampled response whose first write fails: the rest is not sent and the function reports success | return the write's error | not executed | TsAlign.TsAligner.PopulateCharTSDataAsWritten | TsAlign.TsAligner.PopulateCharTSData |
