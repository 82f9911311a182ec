/**
 * The SiteWise client of the integration: the decisions it takes between the
 * business code and the service (type mapping, which properties a model
 * update adds, which aliases are rewritten, how long to poll, how samples
 * become request entries and batches).
 */
module SiteWiseClient {
  import opened Wrappers
  import opened Errors
  import opened Samples
  import opened GoStrings
  import opened Collections
  import opened Batching
  import opened SiteWiseApi
  import opened IotApi

  // ---------------------------------------------------------------------------
  // Type mapping and property definitions
  // ---------------------------------------------------------------------------

  /** mapType: number and boolean types become Double; string, location and unknown types become String. */
  function MapType(ptype: string, catalog: TypeCatalog): (t: DataType)
    ensures t == DoubleType <==> ToUpper(ptype) in catalog.numberTypes || ToUpper(ptype) in catalog.boolTypes
    ensures t == StringType <==> !(ToUpper(ptype) in catalog.numberTypes || ToUpper(ptype) in catalog.boolTypes)
  {
    var upper := ToUpper(ptype);
    if upper in catalog.numberTypes || upper in catalog.boolTypes then DoubleType
    else if upper in catalog.stringTypes || upper in catalog.locationTypes then StringType
    else StringType
  }

  /** The mapping does not depend on the case of the type code. */
  lemma MapTypeIgnoresCase(ptype: string, catalog: TypeCatalog)
    ensures MapType(ToUpper(ptype), catalog) == MapType(ptype, catalog)
  {
    ToUpperIdempotent(ptype);
  }

  /** The unit of a type: the first unit listed for it, if any. */
  function UnitFor(ptype: string, uomMap: map<string, seq<string>>): Option<string>
  {
    if ptype in uomMap && |uomMap[ptype]| > 0 then Some(uomMap[ptype][0]) else None
  }

  function DefinitionOf(name: string, ptype: string, catalog: TypeCatalog, uomMap: map<string, seq<string>>): Definition
  {
    Definition(name, MapType(ptype, catalog), UnitFor(ptype, uomMap))
  }

  /** A model property for a thing property that the model lacks: a Measurement with no id yet. */
  function NewModelProperty(name: string, ptype: string, catalog: TypeCatalog, uomMap: map<string, seq<string>>): ModelProperty
  {
    ModelProperty(None, name, MapType(ptype, catalog), Some(Measurement), UnitFor(ptype, uomMap))
  }

  /** `defs` holds one definition per property of the map, each built from the property's type. */
  ghost predicate DefinesExactly(defs: seq<Definition>, properties: map<string, string>, catalog: TypeCatalog, uomMap: map<string, seq<string>>)
  {
    && (forall i, j :: 0 <= i < j < |defs| ==> defs[i].name != defs[j].name)
    && (forall i :: 0 <= i < |defs| ==>
          defs[i].name in properties && defs[i] == DefinitionOf(defs[i].name, properties[defs[i].name], catalog, uomMap))
    && Defines(defs, properties.Keys)
  }

  /** Every name has a definition. */
  ghost predicate Defines(defs: seq<Definition>, names: set<string>)
  {
    forall n :: n in names ==> exists i :: 0 <= i < |defs| && defs[i].name == n
  }

  /** Appending a definition defines its name too. */
  lemma DefinesAppend(defs: seq<Definition>, names: set<string>, d: Definition)
    requires Defines(defs, names)
    ensures Defines(defs + [d], names + {d.name})
  {
    forall n | n in names + {d.name}
      ensures exists i :: 0 <= i < |defs + [d]| && (defs + [d])[i].name == n
    {
      if n == d.name {
        assert (defs + [d])[|defs|].name == n;
      } else {
        var i :| 0 <= i < |defs| && defs[i].name == n;
        assert (defs + [d])[i].name == n;
      }
    }
  }

  /** The names of a sequence of model properties. */
  ghost function NamesOf(props: seq<ModelProperty>): set<string>
  {
    set i | 0 <= i < |props| :: props[i].name
  }

  /** The thing properties a model does not have yet. */
  ghost function Missing(props: seq<ModelProperty>, thingProperties: map<string, string>): set<string>
  {
    set n | n in thingProperties && n !in NamesOf(props)
  }

  /** `added` holds one new Measurement property per missing name, each built from the property's type. */
  ghost predicate AddsExactly(added: seq<ModelProperty>, missing: set<string>, thingProperties: map<string, string>,
                              catalog: TypeCatalog, uomMap: map<string, seq<string>>)
  {
    && (forall i, j :: 0 <= i < j < |added| ==> added[i].name != added[j].name)
    && (forall i :: 0 <= i < |added| ==>
          added[i].name in missing && added[i].name in thingProperties
          && added[i] == NewModelProperty(added[i].name, thingProperties[added[i].name], catalog, uomMap))
    && (forall n :: n in missing ==> exists i :: 0 <= i < |added| && added[i].name == n)
  }

  /** The update copies the model and appends, after its existing properties, exactly the missing ones. */
  ghost predicate IsUnionUpdate(u: ModelUpdate, model: AssetModel, thingProperties: map<string, string>,
                                catalog: TypeCatalog, uomMap: map<string, seq<string>>)
  {
    && u.id == model.id && u.name == model.name && u.description == model.description && u.extras == model.extras
    && |model.properties| <= |u.properties|
    && u.properties[..|model.properties|] == model.properties
    && AddsExactly(u.properties[|model.properties|..], Missing(model.properties, thingProperties), thingProperties, catalog, uomMap)
  }

  /** A union update removes nothing: its names are the model's names plus the thing's. */
  lemma UnionUpdateNames(u: ModelUpdate, model: AssetModel, thingProperties: map<string, string>,
                         catalog: TypeCatalog, uomMap: map<string, seq<string>>)
    requires IsUnionUpdate(u, model, thingProperties, catalog, uomMap)
    ensures NamesOf(u.properties) == NamesOf(model.properties) + thingProperties.Keys
  {
    var m := |model.properties|;
    var added := u.properties[m..];
    forall n | n in NamesOf(u.properties)
      ensures n in NamesOf(model.properties) + thingProperties.Keys
    {
      var i :| 0 <= i < |u.properties| && u.properties[i].name == n;
      if i < m {
        assert u.properties[..m][i] == model.properties[i];
      } else {
        assert added[i - m] == u.properties[i];
      }
    }
    forall n | n in NamesOf(model.properties) + thingProperties.Keys
      ensures n in NamesOf(u.properties)
    {
      if n in NamesOf(model.properties) {
        var i :| 0 <= i < m && model.properties[i].name == n;
        assert u.properties[..m][i] == u.properties[i];
      } else {
        assert n in Missing(model.properties, thingProperties);
        var i :| 0 <= i < |added| && added[i].name == n;
        assert u.properties[m + i] == added[i];
      }
    }
  }

  /** Once a union update is applied, the same thing properties are no longer missing. */
  lemma UnionUpdateSettles(u: ModelUpdate, model: AssetModel, thingProperties: map<string, string>,
                           catalog: TypeCatalog, uomMap: map<string, seq<string>>)
    requires IsUnionUpdate(u, model, thingProperties, catalog, uomMap)
    ensures Missing(u.properties, thingProperties) == {}
  {
    UnionUpdateNames(u, model, thingProperties, catalog, uomMap);
  }

  /** The Measurement definitions CreateAssetModel sends: one per property, in map iteration order. */
  method BuildDefinitions(properties: map<string, string>, catalog: TypeCatalog, uomMap: map<string, seq<string>>)
    returns (defs: seq<Definition>)
    ensures DefinesExactly(defs, properties, catalog, uomMap)
  {
    defs := [];
    var remaining := properties.Keys;
    while remaining != {}
      invariant remaining <= properties.Keys
      invariant forall i, j :: 0 <= i < j < |defs| ==> defs[i].name != defs[j].name
      invariant forall i :: 0 <= i < |defs| ==>
        defs[i].name in properties && defs[i].name !in remaining
        && defs[i] == DefinitionOf(defs[i].name, properties[defs[i].name], catalog, uomMap)
      invariant Defines(defs, properties.Keys - remaining)
      decreases remaining
    {
      var property :| property in remaining;
      ghost var d := DefinitionOf(property, properties[property], catalog, uomMap);
      DefinesAppend(defs, properties.Keys - remaining, d);
      assert properties.Keys - (remaining - {property}) == (properties.Keys - remaining) + {property};
      defs := defs + [DefinitionOf(property, properties[property], catalog, uomMap)];
      remaining := remaining - {property};
    }
    assert properties.Keys - remaining == properties.Keys;
  }

  /** The names of the model's properties, collected in order. */
  method PropertyNames(props: seq<ModelProperty>) returns (known: set<string>)
    ensures known == NamesOf(props)
  {
    known := {};
    for i := 0 to |props|
      invariant known == NamesOf(props[..i])
    {
      assert props[..i + 1] == props[..i] + [props[i]];
      known := known + {props[i].name};
    }
    assert props[..|props|] == props;
  }

  /** The new Measurement properties UpdateAssetModelProperties appends: one per thing property the model lacks. */
  method MissingProperties(known: set<string>, ghost props: seq<ModelProperty>, thingProperties: map<string, string>,
                           catalog: TypeCatalog, uomMap: map<string, seq<string>>)
    returns (added: seq<ModelProperty>)
    requires known == NamesOf(props)
    ensures AddsExactly(added, Missing(props, thingProperties), thingProperties, catalog, uomMap)
  {
    added := [];
    var remaining := thingProperties.Keys;
    while remaining != {}
      invariant remaining <= thingProperties.Keys
      invariant forall i, j :: 0 <= i < j < |added| ==> added[i].name != added[j].name
      invariant forall i :: 0 <= i < |added| ==>
        added[i].name !in known && added[i].name in thingProperties && added[i].name !in remaining
        && added[i] == NewModelProperty(added[i].name, thingProperties[added[i].name], catalog, uomMap)
      invariant NamesCovered(added, thingProperties.Keys - remaining - known)
      decreases remaining
    {
      var property :| property in remaining;
      if property !in known {
        CoverAppend(added, thingProperties.Keys - remaining - known, NewModelProperty(property, thingProperties[property], catalog, uomMap));
        added := added + [NewModelProperty(property, thingProperties[property], catalog, uomMap)];
        assert thingProperties.Keys - (remaining - {property}) - known == thingProperties.Keys - remaining - known + {property};
      } else {
        assert thingProperties.Keys - (remaining - {property}) - known == thingProperties.Keys - remaining - known;
      }
      remaining := remaining - {property};
    }
    assert Missing(props, thingProperties) == thingProperties.Keys - remaining - known;
  }

  /** Every name in `names` is the name of some property in `props`. */
  ghost predicate NamesCovered(props: seq<ModelProperty>, names: set<string>)
  {
    forall n :: n in names ==> exists i :: 0 <= i < |props| && props[i].name == n
  }

  lemma CoverAppend(props: seq<ModelProperty>, names: set<string>, p: ModelProperty)
    requires NamesCovered(props, names)
    ensures NamesCovered(props + [p], names + {p.name})
  {
    forall n | n in names + {p.name}
      ensures exists i :: 0 <= i < |props + [p]| && (props + [p])[i].name == n
    {
      if n == p.name {
        assert (props + [p])[|props|].name == n;
      } else {
        var i :| 0 <= i < |props| && props[i].name == n;
        assert (props + [p])[i].name == n;
      }
    }
  }

  // ---------------------------------------------------------------------------
  // Alias updates
  // ---------------------------------------------------------------------------

  /** The asset's properties by name; a later property overwrites an earlier one with the same name. */
  function PropertiesByName(props: seq<AssetProperty>): map<string, AssetProperty>
  {
    LastWins(seq(|props|, i requires 0 <= i < |props| => (props[i].name, props[i])))
  }

  /** The names whose alias must be written: known to the asset and not already carrying the wanted alias. */
  ghost function Pending(byName: map<string, AssetProperty>, aliases: map<string, string>): set<string>
  {
    set n | n in aliases && n in byName && byName[n].alias != Some(aliases[n])
  }

  ghost function PendingAliases(props: seq<AssetProperty>, aliases: map<string, string>): set<string>
  {
    Pending(PropertiesByName(props), aliases)
  }

  /** Call c writes the wanted alias of property `name` of the asset. */
  ghost predicate AliasWrite(c: Call, assetId: string, byName: map<string, AssetProperty>, aliases: map<string, string>, name: string)
  {
    && name in byName && name in aliases
    && c.UpdateAssetPropertyCall? && c.updatedAsset == assetId
    && c.propertyId == byName[name].id && c.alias == aliases[name]
  }

  /**
   * The calls `w` write the aliases of the distinct pending names `written`,
   * in that order; every write but the last succeeded; without an error every
   * pending name was written and every write succeeded, and an error is the
   * last write's.
   */
  ghost predicate AliasWrites(w: seq<Call>, assetId: string, byName: map<string, AssetProperty>, aliases: map<string, string>,
                              written: seq<string>, err: Option<Error>)
  {
    && |w| == |written|
    && (forall i, j :: 0 <= i < j < |written| ==> written[i] != written[j])
    && (forall k :: 0 <= k < |written| ==> written[k] in Pending(byName, aliases) && AliasWrite(w[k], assetId, byName, aliases, written[k]))
    && (forall k :: 0 <= k < |written| - 1 ==> w[k].aliased.None?)
    && (err.None? ==> forall n :: n in Pending(byName, aliases) ==> n in written)
    && (err.None? ==> forall k :: 0 <= k < |w| ==> w[k].aliased.None?)
    && (err.Some? ==> |w| > 0 && err == w[|w| - 1].aliased)
  }

  /** The asset's properties after every named one received its alias. */
  function WithAliases(props: seq<AssetProperty>, aliases: map<string, string>): seq<AssetProperty>
  {
    seq(|props|, i requires 0 <= i < |props| =>
      if props[i].name in aliases then props[i].(alias := Some(aliases[props[i].name])) else props[i])
  }

  /** Alias updates are idempotent: once applied, nothing is pending any more. */
  lemma AliasUpdateSettles(props: seq<AssetProperty>, aliases: map<string, string>)
    ensures PendingAliases(WithAliases(props, aliases), aliases) == {}
  {
    var after := WithAliases(props, aliases);
    var pairs := seq(|after|, i requires 0 <= i < |after| => (after[i].name, after[i]));
    var byName := LastWins(pairs);
    LastWinsDomain(pairs);
    forall n | n in aliases && n in byName
      ensures byName[n].alias == Some(aliases[n])
    {
      var i :| 0 <= i < |pairs| && pairs[i].0 == n && pairs[i].1 == byName[n];
      assert after[i].name == n;
    }
  }

  // ---------------------------------------------------------------------------
  // Samples to entries
  // ---------------------------------------------------------------------------

  /** interfaceToString; the float renderings are opaque encoders. */
  function InterfaceToString(v: Sample, formatFloat: bv64 -> string, printFloat32: bv32 -> string): string
  {
    match v
    case StringSample(s) => s
    case IntSample(i) => Itoa(i)
    case Float64Sample(bits) => formatFloat(bits)
    case BoolSample(b) => if b then "true" else "false"
    case MapSample(json) => json
    case Int32Sample(i) => Itoa(i)
    case Int64Sample(i) => Itoa(i)
    case Float32Sample(bits) => printFloat32(bits)
    case OtherSample(printed) => printed
  }

  /** The non-float renderings can be read back: strings as they are, integers through ParseInt. */
  lemma InterfaceToStringReadBack(v: Sample, formatFloat: bv64 -> string, printFloat32: bv32 -> string)
    ensures v.StringSample? ==> InterfaceToString(v, formatFloat, printFloat32) == v.s
    ensures v.IntSample? ==> ParseInt64(InterfaceToString(v, formatFloat, printFloat32)) == Some(v.i)
    ensures v.Int32Sample? ==> ParseInt64(InterfaceToString(v, formatFloat, printFloat32)) == Some(v.i32)
    ensures v.BoolSample? ==> (InterfaceToString(v, formatFloat, printFloat32) == "true" <==> v.b)
  {
    match v
    case IntSample(i) => ParseInt64OfItoa(i);
    case Int32Sample(i) => ParseInt64OfItoa(i);
    case _ =>
  }

  /** The points written for a float series: every value, in order, at its time. */
  function SeriesPoints(ts: seq<Int64>, values: seq<Double>): (points: seq<PropertyValue>)
    requires |ts| == |values|
    ensures |points| == |ts|
    ensures forall i :: 0 <= i < |ts| ==> points[i] == PropertyValue(ts[i], DoubleValue(values[i]))
  {
    if ts == [] then []
    else
      var last := |ts| - 1;
      SeriesPoints(ts[..last], values[..last]) + [PropertyValue(ts[last], DoubleValue(values[last]))]
  }

  /** The variant a sampled value is written as; None for the kinds the sampled writer skips (bool included). */
  function SampledVariant(v: Sample): (r: Option<Variant>)
    ensures v.BoolSample? ==> r.None?
  {
    match v
    case StringSample(s) => Some(StringValue(s))
    case IntSample(i) => Some(IntegerValue(ToInt32(i)))
    case Float64Sample(bits) => Some(DoubleValue(Float64(bits)))
    case MapSample(json) => Some(StringValue(json))
    case _ => None
  }

  /** The points written for a sampled series: the supported values, in order, at their times. */
  function SampledPoints(ts: seq<Int64>, values: seq<Sample>): (points: seq<PropertyValue>)
    requires |ts| == |values|
    ensures |points| <= |ts|
  {
    if ts == [] then []
    else
      var last := |ts| - 1;
      SampledPoints(ts[..last], values[..last]) + SampledPoint(ts[last], values[last])
  }

  /** The point one sample contributes: none when its type is not supported. */
  function SampledPoint(t: Int64, value: Sample): (points: seq<PropertyValue>)
    ensures |points| <= 1
  {
    match SampledVariant(value)
    case Some(v) => [PropertyValue(t, v)]
    case None => []
  }

  /** Writing a series in consecutive pieces writes the same points as writing it at once. */
  lemma {:induction false} SampledPointsAppend(ts1: seq<Int64>, v1: seq<Sample>, ts2: seq<Int64>, v2: seq<Sample>)
    requires |ts1| == |v1| && |ts2| == |v2|
    ensures SampledPoints(ts1 + ts2, v1 + v2) == SampledPoints(ts1, v1) + SampledPoints(ts2, v2)
    decreases |ts2|
  {
    if ts2 == [] {
      assert ts1 + ts2 == ts1 && v1 + v2 == v1;
    } else {
      var l := |ts2| - 1;
      var front := SampledPoints(ts2[..l], v2[..l]);
      var last := SampledPoint(ts2[l], v2[l]);
      assert SampledPoints(ts1 + ts2, v1 + v2) == (SampledPoints(ts1, v1) + front) + last by {
        SampledPointsAppend(ts1, v1, ts2[..l], v2[..l]);
        ConcatLast(ts1, ts2);
        ConcatLast(v1, v2);
        SampledPointsLast(ts1 + ts2, v1 + v2);
      }
      assert SampledPoints(ts2, v2) == front + last by {
        SampledPointsLast(ts2, v2);
      }
      AppendAssoc(SampledPoints(ts1, v1), front, last);
    }
  }

  /** All but the last element of a concatenation, and its last element, come from its second part. */
  lemma ConcatLast<T>(a: seq<T>, b: seq<T>)
    requires |b| > 0
    ensures (a + b)[..|a + b| - 1] == a + b[..|b| - 1]
    ensures (a + b)[|a + b| - 1] == b[|b| - 1]
  {
  }

  /** The points of a non-empty series are those of all but its last sample, then that sample's. */
  lemma SampledPointsLast(ts: seq<Int64>, values: seq<Sample>)
    requires |ts| == |values| > 0
    ensures SampledPoints(ts, values) ==
      SampledPoints(ts[..|ts| - 1], values[..|values| - 1]) + SampledPoint(ts[|ts| - 1], values[|values| - 1])
  {
  }

  /** When every value is supported, point i is value i at time i. */
  lemma {:induction false} SampledPointsAllSupported(ts: seq<Int64>, values: seq<Sample>)
    requires |ts| == |values|
    requires forall i :: 0 <= i < |values| ==> SampledVariant(values[i]).Some?
    ensures |SampledPoints(ts, values)| == |ts|
    ensures forall i :: 0 <= i < |ts| ==> SampledPoints(ts, values)[i] == PropertyValue(ts[i], SampledVariant(values[i]).value)
  {
    if ts != [] {
      var l := |ts| - 1;
      SampledPointsAllSupported(ts[..l], values[..l]);
    }
  }

  /** A point of the arbitrary-sample writer. */
  datatype DataPoint = DataPoint(alias: string, ts: Int64, value: Sample)

  /** The variant an arbitrary value is written as: bool as 1.0 or 0.0, integers narrowed to int32, float32 widened. */
  function ArbitraryVariant(v: Sample): (r: Option<Variant>)
    ensures v.BoolSample? ==> r == Some(DoubleValue(if v.b then DoubleOne else DoubleZero))
    ensures r.None? <==> v.OtherSample?
  {
    match v
    case BoolSample(b) => Some(DoubleValue(if b then DoubleOne else DoubleZero))
    case StringSample(s) => Some(StringValue(s))
    case Int32Sample(i) => Some(IntegerValue(i))
    case Int64Sample(i) => Some(IntegerValue(ToInt32(i)))
    case IntSample(i) => Some(IntegerValue(ToInt32(i)))
    case Float32Sample(bits) => Some(DoubleValue(WidenedFloat32(bits)))
    case Float64Sample(bits) => Some(DoubleValue(Float64(bits)))
    case MapSample(json) => Some(StringValue(json))
    case OtherSample(_) => None
  }

  /** The (alias, value) pairs the writer turns into entries: the supported points, in order. */
  function Supported(points: seq<DataPoint>): (items: seq<(string, PropertyValue)>)
    ensures |items| <= |points|
  {
    if points == [] then []
    else
      var last := points[|points| - 1];
      var front := Supported(points[..|points| - 1]);
      match ArbitraryVariant(last.value)
      case Some(v) => front + [(last.alias, PropertyValue(last.ts, v))]
      case None => front
  }

  /** The pairs of a prefix of the points are a prefix of the pairs. */
  lemma {:induction false} SupportedPrefix(points: seq<DataPoint>, i: nat)
    requires i <= |points|
    ensures |Supported(points[..i])| <= |Supported(points)|
    ensures Supported(points[..i]) == Supported(points)[..|Supported(points[..i])|]
    decreases |points|
  {
    if i < |points| {
      var l := |points| - 1;
      SupportedPrefix(points[..l], i);
      assert points[..l][..i] == points[..i];
    } else {
      assert points[..i] == points;
    }
  }

  /** The entries of one batch, numbered "1", "2", ... from the start of the batch. */
  function Numbered(items: seq<(string, PropertyValue)>): (entries: seq<Entry>)
    ensures |entries| == |items|
  {
    seq(|items|, i requires 0 <= i < |items| => Entry(Itoa(i + 1), items[i].0, [items[i].1]))
  }

  /** The requests the arbitrary-sample writer sends: the supported points cut into batches of at most ten. */
  function ArbitraryBatches(points: seq<DataPoint>): (batches: seq<seq<Entry>>)
    ensures forall k :: 0 <= k < |batches| ==> 0 < |batches[k]| <= Limit
  {
    var chunks := Chunks(Supported(points));
    seq(|chunks|, k requires 0 <= k < |chunks| => Numbered(chunks[k]))
  }

  /** Every batch numbers its entries from "1", and the batches hold all supported points in order. */
  lemma ArbitraryBatchesFacts(points: seq<DataPoint>)
    ensures |ArbitraryBatches(points)| == (|Supported(points)| + Limit - 1) / Limit
    ensures forall k, i :: 0 <= k < |ArbitraryBatches(points)| && 0 <= i < |ArbitraryBatches(points)[k]| ==>
      ArbitraryBatches(points)[k][i].entryId == Itoa(i + 1)
    ensures Flatten(Chunks(Supported(points))) == Supported(points)
  {
    ChunkCount(Supported(points));
    FlattenChunks(Supported(points));
  }

  /** Adding a supported point to the open batch appends one entry with the next id. */
  lemma AppendEntry(items: seq<(string, PropertyValue)>, x: (string, PropertyValue), sent: nat, data: seq<Entry>)
    requires Limit * sent <= |items| && data == Numbered(items[Limit * sent..])
    ensures data + [Entry(Itoa(|data| + 1), x.0, [x.1])] == Numbered((items + [x])[Limit * sent..])
  {
    assert (items + [x])[Limit * sent..] == items[Limit * sent..] + [x];
  }

  /** When the open batch fills up, it is the next batch of the specification. */
  lemma FullBatch(points: seq<DataPoint>, items: seq<(string, PropertyValue)>, sent: nat)
    requires |items| == Limit * sent + Limit
    requires |items| <= |Supported(points)| && items == Supported(points)[..|items|]
    ensures sent < |ArbitraryBatches(points)|
    ensures ArbitraryBatches(points)[sent] == Numbered(items[Limit * sent..])
  {
    var all := Supported(points);
    ChunkExists(all, sent);
    ChunkAt(all, sent);
    assert all[Limit * sent..Limit * sent + Limit] == items[Limit * sent..];
  }

  /** After the last point, the open batch is the last batch of the specification, if it is not empty. */
  lemma LastBatch(points: seq<DataPoint>, sent: nat)
    requires Limit * sent <= |Supported(points)| < Limit * sent + Limit
    ensures |Supported(points)| == Limit * sent ==> |ArbitraryBatches(points)| == sent
    ensures |Supported(points)| > Limit * sent ==>
      |ArbitraryBatches(points)| == sent + 1
      && ArbitraryBatches(points)[sent] == Numbered(Supported(points)[Limit * sent..])
  {
    var all := Supported(points);
    ChunkCount(all);
    if |all| > Limit * sent {
      ChunkAt(all, sent);
    }
  }

  /**
   * The calls `w` send the first |w| of the batches in order, all but the
   * last successfully; the write succeeds exactly when every batch went out
   * and none failed, and an error is the failed request's.
   */
  ghost predicate SendsBatches(w: seq<Call>, batches: seq<seq<Entry>>, err: Option<Error>)
  {
    && |w| <= |batches|
    && (forall k :: 0 <= k < |w| ==> w[k].BatchPutCall? && w[k].entries == batches[k])
    && (forall k :: 0 <= k < |w| - 1 ==> w[k].put.Ok?)
    && (err.None? <==> |w| == |batches| && (|w| == 0 || w[|w| - 1].put.Ok?))
    && (err.Some? ==> |w| > 0 && err == PutError(w[|w| - 1].put))
  }

  /** The calls `w` sent the first |w| batches in order, all successfully. */
  ghost predicate SentInOrder(w: seq<Call>, batches: seq<seq<Entry>>)
  {
    && |w| <= |batches|
    && forall k :: 0 <= k < |w| ==> w[k].BatchPutCall? && w[k].entries == batches[k] && w[k].put.Ok?
  }

  /** Sending the next batch either extends the successful prefix or ends the write with its error. */
  lemma SendNext(w: seq<Call>, batches: seq<seq<Entry>>, c: Call)
    requires SentInOrder(w, batches) && |w| < |batches|
    requires c.BatchPutCall? && c.entries == batches[|w|]
    ensures c.put.Ok? ==> SentInOrder(w + [c], batches)
    ensures c.put.Err? ==> SendsBatches(w + [c], batches, Some(c.put.error))
  {
  }

  /** Once every batch went out successfully, the write succeeded. */
  lemma SentAll(w: seq<Call>, batches: seq<seq<Entry>>)
    requires SentInOrder(w, batches) && |w| == |batches|
    ensures SendsBatches(w, batches, None)
  {
  }

  /** A write that sent every batch of a first list, then a second write, together write both lists. */
  lemma SendsBatchesAppend(w1: seq<Call>, b1: seq<seq<Entry>>, w2: seq<Call>, b2: seq<seq<Entry>>, err: Option<Error>)
    requires SendsBatches(w1, b1, None) && SendsBatches(w2, b2, err)
    ensures SendsBatches(w1 + w2, b1 + b2, err)
  {
    var w, b := w1 + w2, b1 + b2;
    forall k | 0 <= k < |w|
      ensures w[k].BatchPutCall? && w[k].entries == b[k]
    {
      if k < |w1| {
        assert w[k] == w1[k] && b[k] == b1[k];
      } else {
        assert w[k] == w2[k - |w1|] && b[k] == b2[k - |w1|];
      }
    }
    forall k | 0 <= k < |w| - 1
      ensures w[k].put.Ok?
    {
      if k < |w1| {
        assert w[k] == w1[k];
      } else {
        assert w[k] == w2[k - |w1|];
      }
    }
    if w2 != [] {
      assert w[|w| - 1] == w2[|w2| - 1];
    }
  }

  /** A write that failed stays failed whatever batches were planned after the failing one. */
  lemma SendsBatchesFailed(w: seq<Call>, b: seq<seq<Entry>>, rest: seq<seq<Entry>>, e: Error)
    requires SendsBatches(w, b, Some(e))
    ensures SendsBatches(w, b + rest, Some(e))
  {
    forall k | 0 <= k < |w|
      ensures (b + rest)[k] == b[k]
    {
    }
  }

  /**
   * The state of the arbitrary-sample writer after the first i points: the
   * full batches went out in order, and the open batch numbers the
   * supported points after them.
   */
  ghost predicate Writing(points: seq<DataPoint>, i: nat, items: seq<(string, PropertyValue)>,
                          calls: seq<Call>, data: seq<Entry>)
  {
    && i <= |points|
    && items == Supported(points[..i])
    && |items| == Limit * |calls| + |data| && |data| < Limit
    && data == Numbered(items[Limit * |calls|..])
    && SentInOrder(calls, ArbitraryBatches(points))
  }

  /** The error of a batch put; per-entry rejections are only logged. */
  function PutError(r: Result<seq<string>, Error>): Option<Error>
  {
    if r.Err? then Some(r.error) else None
  }

  // ---------------------------------------------------------------------------
  // The client
  // ---------------------------------------------------------------------------

  class Client {
    const svc: Service
    const catalog: TypeCatalog

    constructor (svc: Service, catalog: TypeCatalog)
      ensures this.svc == svc && this.catalog == catalog
    {
      this.svc := svc;
      this.catalog := catalog;
    }

    /** CreateAssetModel: one Measurement definition per property, in map order, sent in one request. */
    method CreateAssetModel(name: string, properties: map<string, string>, uomMap: map<string, seq<string>>)
      returns (r: Result<string, Error>)
      modifies svc
      ensures |svc.log| == |old(svc.log)| + 1 && svc.log[..|old(svc.log)|] == old(svc.log)
      ensures svc.log[|old(svc.log)|].CreateAssetModelCall? && svc.log[|old(svc.log)|].modelName == name
      ensures DefinesExactly(svc.log[|old(svc.log)|].definitions, properties, catalog, uomMap)
      ensures r == svc.log[|old(svc.log)|].createdModel
    {
      var defs := BuildDefinitions(properties, catalog, uomMap);
      r := svc.CreateAssetModel(name, defs);
    }

    /**
     * UpdateAssetModelProperties: the update keeps every property of the
     * model and appends the thing properties it lacks; it is sent only when
     * something was appended.
     */
    method UpdateAssetModelProperties(model: AssetModel, thingProperties: map<string, string>, uomMap: map<string, seq<string>>)
      returns (err: Option<Error>)
      modifies svc
      ensures Missing(model.properties, thingProperties) == {} ==> svc.log == old(svc.log) && err.None?
      ensures Missing(model.properties, thingProperties) != {} ==>
        && |svc.log| == |old(svc.log)| + 1 && svc.log[..|old(svc.log)|] == old(svc.log)
        && svc.log[|old(svc.log)|].UpdateAssetModelCall?
        && IsUnionUpdate(svc.log[|old(svc.log)|].update, model, thingProperties, catalog, uomMap)
        && err == svc.log[|old(svc.log)|].updated
    {
      var known := PropertyNames(model.properties);
      ghost var missing := Missing(model.properties, thingProperties);
      var added := MissingProperties(known, model.properties, thingProperties, catalog, uomMap);
      if |added| > 0 {
        var update := ModelUpdate(model.id, model.name, model.description, model.properties + added, model.extras);
        assert update.properties[|model.properties|..] == added;
        assert added[0].name in missing;
        err := svc.UpdateAssetModel(update);
      } else {
        assert forall n :: n !in missing;
        err := None;
      }
    }

    /** The name index UpdateAssetProperties builds from the described asset. */
    method IndexByName(props: seq<AssetProperty>) returns (byName: map<string, AssetProperty>)
      ensures byName == PropertiesByName(props)
    {
      ghost var pairs := seq(|props|, j requires 0 <= j < |props| => (props[j].name, props[j]));
      byName := map[];
      for i := 0 to |props|
        invariant byName == LastWins(pairs[..i])
      {
        LastWinsStep(pairs, i);
        byName := byName[props[i].name := props[i]];
      }
      assert pairs[..|props|] == pairs;
    }

    /**
     * UpdateAssetProperties: describe the asset, then write the alias of
     * every pending property, one request each, stopping at the first error.
     */
    method UpdateAssetProperties(assetId: string, aliases: map<string, string>)
      returns (err: Option<Error>, ghost written: seq<string>)
      modifies svc
      ensures |old(svc.log)| < |svc.log| && svc.log[..|old(svc.log)|] == old(svc.log)
      ensures var w := svc.log[|old(svc.log)|..];
        && w[0].DescribeAssetCall? && w[0].assetId == assetId
        && (w[0].asset.Err? ==> |w| == 1 && err == Some(w[0].asset.error))
        && (w[0].asset.Ok? ==> AliasWrites(w[1..], assetId, PropertiesByName(w[0].asset.value.properties), aliases, written, err))
    {
      var described := svc.DescribeAsset(assetId);
      if described.Err? {
        return Some(described.error), [];
      }
      ghost var start := |svc.log|;
      var byName := IndexByName(described.value.properties);
      err, written := WriteAliases(assetId, byName, aliases);
      assert svc.log[start - 1..][1..] == svc.log[start..];
    }

    /** The alias-writing loop of UpdateAssetProperties. */
    method WriteAliases(assetId: string, byName: map<string, AssetProperty>, aliases: map<string, string>)
      returns (err: Option<Error>, ghost written: seq<string>)
      modifies svc
      ensures |old(svc.log)| <= |svc.log| && svc.log[..|old(svc.log)|] == old(svc.log)
      ensures AliasWrites(svc.log[|old(svc.log)|..], assetId, byName, aliases, written, err)
    {
      ghost var start := |svc.log|;
      ghost var pending := Pending(byName, aliases);
      written := [];
      var remaining := aliases.Keys;
      while remaining != {}
        invariant remaining <= aliases.Keys
        invariant start <= |svc.log| && svc.log[..start] == old(svc.log)
        invariant |svc.log[start..]| == |written|
        invariant forall i, j :: 0 <= i < j < |written| ==> written[i] != written[j]
        invariant forall k :: 0 <= k < |written| ==> written[k] in pending && written[k] !in remaining
        invariant forall k :: 0 <= k < |written| ==>
          AliasWrite(svc.log[start..][k], assetId, byName, aliases, written[k]) && svc.log[start..][k].aliased.None?
        invariant forall n :: n in pending && n !in remaining ==> n in written
        decreases remaining
      {
        var property :| property in remaining;
        remaining := remaining - {property};
        if property !in byName {
          continue;
        }
        var current := byName[property];
        if current.alias.Some? && current.alias.value == aliases[property] {
          continue;
        }
        ghost var before := svc.log[start..];
        var failed := svc.UpdateAssetProperty(assetId, current.id, aliases[property]);
        assert svc.log[start..] == before + [svc.log[|svc.log| - 1]];
        written := written + [property];
        if failed.Some? {
          return failed, written;
        }
      }
      err := None;
    }

    /** PollForModelActiveStatus: describe the model until it is active, at most maxRetry times. */
    method PollForModelActiveStatus(modelId: string, maxRetry: int) returns (active: bool)
      modifies svc
      ensures |old(svc.log)| <= |svc.log| && svc.log[..|old(svc.log)|] == old(svc.log)
      ensures |svc.log| - |old(svc.log)| <= if maxRetry > 0 then maxRetry else 0
      ensures forall k :: |old(svc.log)| <= k < |svc.log| ==>
        svc.log[k].DescribeAssetModelCall? && svc.log[k].describedId == modelId
      ensures forall k :: |old(svc.log)| <= k < |svc.log| - 1 ==>
        svc.log[k].model.Ok? && svc.log[k].model.value.state != Active
      ensures active <==> |svc.log| > |old(svc.log)| && svc.log[|svc.log| - 1].model.Ok?
                          && svc.log[|svc.log| - 1].model.value.state == Active
      ensures !active && |svc.log| - |old(svc.log)| < maxRetry ==>
        |svc.log| > |old(svc.log)| && svc.log[|svc.log| - 1].model.Err?
    {
      var i := 0;
      while i < maxRetry
        invariant 0 <= i && (maxRetry > 0 ==> i <= maxRetry) && (maxRetry <= 0 ==> i == 0)
        invariant |svc.log| == |old(svc.log)| + i && svc.log[..|old(svc.log)|] == old(svc.log)
        invariant forall k :: |old(svc.log)| <= k < |svc.log| ==>
          svc.log[k].DescribeAssetModelCall? && svc.log[k].describedId == modelId
          && svc.log[k].model.Ok? && svc.log[k].model.value.state != Active
      {
        var described := svc.DescribeAssetModel(modelId);
        if described.Err? {
          return false;
        }
        if described.value.state == Active {
          return true;
        }
        i := i + 1;
      }
      return false;
    }

    /** PollForAssetActiveStatus: describe the asset until it is active, at most maxRetry times. */
    method PollForAssetActiveStatus(assetId: string, maxRetry: int) returns (active: bool)
      modifies svc
      ensures |old(svc.log)| <= |svc.log| && svc.log[..|old(svc.log)|] == old(svc.log)
      ensures |svc.log| - |old(svc.log)| <= if maxRetry > 0 then maxRetry else 0
      ensures forall k :: |old(svc.log)| <= k < |svc.log| ==>
        svc.log[k].DescribeAssetCall? && svc.log[k].assetId == assetId
      ensures forall k :: |old(svc.log)| <= k < |svc.log| - 1 ==>
        svc.log[k].asset.Ok? && svc.log[k].asset.value.state != Active
      ensures active <==> |svc.log| > |old(svc.log)| && svc.log[|svc.log| - 1].asset.Ok?
                          && svc.log[|svc.log| - 1].asset.value.state == Active
      ensures !active && |svc.log| - |old(svc.log)| < maxRetry ==>
        |svc.log| > |old(svc.log)| && svc.log[|svc.log| - 1].asset.Err?
    {
      var i := 0;
      while i < maxRetry
        invariant 0 <= i && (maxRetry > 0 ==> i <= maxRetry) && (maxRetry <= 0 ==> i == 0)
        invariant |svc.log| == |old(svc.log)| + i && svc.log[..|old(svc.log)|] == old(svc.log)
        invariant forall k :: |old(svc.log)| <= k < |svc.log| ==>
          svc.log[k].DescribeAssetCall? && svc.log[k].assetId == assetId
          && svc.log[k].asset.Ok? && svc.log[k].asset.value.state != Active
      {
        var described := svc.DescribeAsset(assetId);
        if described.Err? {
          return false;
        }
        if described.value.state == Active {
          return true;
        }
        i := i + 1;
      }
      return false;
    }

    /** PopulateTimeSeriesByAlias: one entry "1" holding every (time, value) pair in order. */
    method PopulateTimeSeriesByAlias(alias: string, ts: seq<Int64>, values: seq<Double>) returns (err: Option<Error>)
      modifies svc
      ensures |ts| != |values| ==>
        err == Some(Failure("timestamps and values must have the same length")) && svc.log == old(svc.log)
      ensures |ts| == |values| == 0 ==> err == Some(Failure("no data to populate")) && svc.log == old(svc.log)
      ensures |ts| == |values| > 0 ==>
        && |svc.log| == |old(svc.log)| + 1 && svc.log[..|old(svc.log)|] == old(svc.log)
        && var c := svc.log[|old(svc.log)|];
           c.BatchPutCall? && c.entries == [Entry("1", alias, SeriesPoints(ts, values))]
           && err == PutError(c.put)
    {
      if |ts| != |values| {
        return Some(Failure("timestamps and values must have the same length"));
      }
      if |ts| == 0 {
        return Some(Failure("no data to populate"));
      }
      var pvalues: seq<PropertyValue> := [];
      for i := 0 to |ts|
        invariant pvalues == SeriesPoints(ts[..i], values[..i])
      {
        assert ts[..i + 1][..i] == ts[..i] && values[..i + 1][..i] == values[..i];
        pvalues := pvalues + [PropertyValue(ts[i], DoubleValue(values[i]))];
      }
      assert ts[..|ts|] == ts && values[..|values|] == values;
      var out := svc.BatchPutAssetPropertyValue([Entry("1", alias, pvalues)]);
      err := PutError(out);
    }

    /** PopulateSampledSamplesTimeSeriesByAlias: one entry "1" holding the supported samples in order. */
    method PopulateSampledSamplesTimeSeriesByAlias(alias: string, ts: seq<Int64>, values: seq<Sample>) returns (err: Option<Error>)
      modifies svc
      ensures |ts| != |values| ==>
        err == Some(Failure("timestamps and values must have the same length")) && svc.log == old(svc.log)
      ensures |ts| == |values| == 0 ==> err == Some(Failure("no data to populate")) && svc.log == old(svc.log)
      ensures |ts| == |values| > 0 ==>
        && |svc.log| == |old(svc.log)| + 1 && svc.log[..|old(svc.log)|] == old(svc.log)
        && var c := svc.log[|old(svc.log)|];
           c.BatchPutCall? && c.entries == [Entry("1", alias, SampledPoints(ts, values))]
           && err == PutError(c.put)
    {
      if |ts| != |values| {
        return Some(Failure("timestamps and values must have the same length"));
      }
      if |ts| == 0 {
        return Some(Failure("no data to populate"));
      }
      var pvalues: seq<PropertyValue> := [];
      for i := 0 to |ts|
        invariant pvalues == SampledPoints(ts[..i], values[..i])
      {
        assert ts[..i + 1][..i] == ts[..i] && values[..i + 1][..i] == values[..i];
        match SampledVariant(values[i])
        case Some(v) =>
          pvalues := pvalues + [PropertyValue(ts[i], v)];
        case None =>
      }
      assert ts[..|ts|] == ts && values[..|values|] == values;
      var out := svc.BatchPutAssetPropertyValue([Entry("1", alias, pvalues)]);
      err := PutError(out);
    }

    /** Sends the next batch of the arbitrary-sample writer; `start` is the log before the write began. */
    method SendBatch(data: seq<Entry>, ghost start: seq<Call>, ghost calls: seq<Call>, ghost batches: seq<seq<Entry>>)
      returns (out: Result<seq<string>, Error>, ghost calls': seq<Call>)
      requires SentInOrder(calls, batches) && |calls| < |batches| && data == batches[|calls|]
      requires svc.log == start + calls
      modifies svc
      ensures calls' == calls + [BatchPutCall(data, out)]
      ensures svc.log == start + calls'
      ensures out.Ok? ==> SentInOrder(calls', batches)
      ensures out.Err? ==> SendsBatches(calls', batches, Some(out.error))
    {
      out := svc.BatchPutAssetPropertyValue(data);
      calls' := calls + [BatchPutCall(data, out)];
      SendNext(calls, batches, BatchPutCall(data, out));
      AppendAssoc(start, calls, [BatchPutCall(data, out)]);
    }

    /**
     * One step of the arbitrary-sample writer: a supported point joins the
     * open batch, which is sent once it holds ten entries.
     */
    method AcceptPoint(points: seq<DataPoint>, i: nat, data: seq<Entry>, entry: int,
                       ghost items: seq<(string, PropertyValue)>, ghost calls: seq<Call>, ghost start: seq<Call>)
      returns (data': seq<Entry>, entry': int, ghost items': seq<(string, PropertyValue)>, ghost calls': seq<Call>, err: Option<Error>)
      requires i < |points| && Writing(points, i, items, calls, data) && entry == |data| + 1
      requires svc.log == start + calls
      modifies svc
      ensures svc.log == start + calls'
      ensures err.None? ==> Writing(points, i + 1, items', calls', data') && entry' == |data'| + 1
      ensures err.Some? ==> SendsBatches(calls', ArbitraryBatches(points), err)
    {
      assert points[..i + 1][..i] == points[..i];
      data', entry', items', calls', err := data, entry, items, calls, None;
      var p := points[i];
      var variant := ArbitraryVariant(p.value);
      if variant.Some? {
        ghost var x := (p.alias, PropertyValue(p.ts, variant.value));
        assert Supported(points[..i + 1]) == items + [x];
        AppendEntry(items, x, |calls|, data);
        items' := items + [x];
        data' := data + [Entry(Itoa(entry), p.alias, [PropertyValue(p.ts, variant.value)])];
        entry' := entry + 1;
        if |data'| == 10 {
          SupportedPrefix(points, i + 1);
          FullBatch(points, items', |calls|);
          var out;
          out, calls' := SendBatch(data', start, calls, ArbitraryBatches(points));
          if out.Err? {
            return data', entry', items', calls', Some(out.error);
          }
          assert items'[Limit * |calls'|..] == [];
          data' := [];
          entry' := 1;
        }
      } else {
        assert Supported(points[..i + 1]) == items;
      }
    }

    /**
     * PopulateArbitrarySamplesByAlias: every supported point becomes one
     * entry; a request goes out at every tenth entry and for the final
     * partial batch, with entry ids restarting at "1" in each request; the
     * first failed request ends the write.
     */
    method PopulateArbitrarySamplesByAlias(points: seq<DataPoint>) returns (err: Option<Error>, ghost w: seq<Call>)
      modifies svc
      ensures svc.log == old(svc.log) + w
      ensures points == [] ==> err == Some(Failure("no data to populate")) && w == []
      ensures points != [] ==> SendsBatches(w, ArbitraryBatches(points), err)
    {
      if |points| == 0 {
        return Some(Failure("no data to populate")), [];
      }
      w := [];
      var data: seq<Entry> := [];
      var entry := 1;
      ghost var items: seq<(string, PropertyValue)> := [];
      for i := 0 to |points|
        invariant Writing(points, i, items, w, data) && entry == |data| + 1
        invariant svc.log == old(svc.log) + w
      {
        data, entry, items, w, err := AcceptPoint(points, i, data, entry, items, w, old(svc.log));
        if err.Some? {
          return;
        }
      }
      ghost var batches := ArbitraryBatches(points);
      assert points[..|points|] == points;
      LastBatch(points, |w|);
      if |data| > 0 {
        var out;
        out, w := SendBatch(data, old(svc.log), w, batches);
        if out.Err? {
          return Some(out.error), w;
        }
      }
      SentAll(w, batches);
      err := None;
    }
  }
}
