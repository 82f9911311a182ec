/**
 * Entity alignment: the passes that make SiteWise asset models and assets
 * mirror the Arduino things. Discovery reads the existing models and
 * assets, reconciliation widens models that drifted from their things,
 * model creation adds a model for every new property-name key, and asset
 * alignment creates or reuses one asset per thing and binds its aliases.
 * The goroutine fan-out of the asset pass is modelled one thing at a time.
 */
module EntityAlign {
  import opened Wrappers
  import opened Errors
  import opened GoStrings
  import opened Collections
  import opened SiteWiseApi
  import opened IotApi
  import opened SchemaKey
  import opened SiteWiseClient
  import opened Batching

  /** How many names a new model may try before giving up. */
  const MaxNameAttempts: nat := 100
  /** Describe attempts while waiting for a model, and for an asset, to become active. */
  const ModelPollRetries: int := 5
  const AssetPollRetries: int := 10

  /** An asset found by discovery, indexed by the thing id held in its external id. */
  datatype AssetDefinition = AssetDefinition(assetId: string, modelId: string, thingId: string)

  // ---------------------------------------------------------------------------
  // Maps built from things and the type catalogue
  // ---------------------------------------------------------------------------

  /** The things by id; a later thing with the same id replaces an earlier one. */
  function ThingsById(things: seq<Thing>): map<string, Thing>
  {
    LastWins(seq(|things|, i requires 0 <= i < |things| => (things[i].id, things[i])))
  }

  /** Every listed thing is found under its id, and only listed things are. */
  lemma ThingsByIdFacts(things: seq<Thing>)
    ensures forall id :: id in ThingsById(things) <==> exists i :: 0 <= i < |things| && things[i].id == id
    ensures forall id :: id in ThingsById(things) ==> ThingsById(things)[id].id == id && ThingsById(things)[id] in things
  {
    var pairs := seq(|things|, i requires 0 <= i < |things| => (things[i].id, things[i]));
    LastWinsDomain(pairs);
    forall id | exists i :: 0 <= i < |things| && things[i].id == id
      ensures id in ThingsById(things)
    {
      var i :| 0 <= i < |things| && things[i].id == id;
      assert pairs[i].0 == id;
    }
  }

  /** toThingMap. */
  method ToThingMap(things: seq<Thing>) returns (m: map<string, Thing>)
    ensures m == ThingsById(things)
  {
    ghost var pairs := seq(|things|, i requires 0 <= i < |things| => (things[i].id, things[i]));
    m := map[];
    for i := 0 to |things|
      invariant m == LastWins(pairs[..i])
    {
      LastWinsStep(pairs, i);
      m := m[things[i].id := things[i]];
    }
    assert pairs[..|things|] == pairs;
  }

  /** thingPropertiesMap: the type of every property, by name. */
  method ThingPropertiesMap(thing: Thing) returns (m: map<string, string>)
    ensures m == PropertyTypes(thing.properties)
  {
    var props := thing.properties;
    ghost var pairs := seq(|props|, i requires 0 <= i < |props| => (props[i].name, props[i].ptype));
    m := map[];
    for i := 0 to |props|
      invariant m == LastWins(pairs[..i])
    {
      LastWinsStep(pairs, i);
      m := m[props[i].name := props[i].ptype];
    }
    assert pairs[..|props|] == pairs;
  }

  /** The alias of every property of a thing, by name. */
  function AliasesFor(thingId: string, types: map<string, string>): (aliases: map<string, string>)
    ensures aliases.Keys == types.Keys
  {
    map n | n in types :: PropertyAlias(thingId, n)
  }

  /** Distinct names of things whose ids hold no '/' never share an alias. */
  lemma AliasesDistinct(t1: string, types1: map<string, string>, t2: string, types2: map<string, string>, n1: string, n2: string)
    requires '/' !in t1 && '/' !in t2
    requires n1 in types1 && n2 in types2
    requires AliasesFor(t1, types1)[n1] == AliasesFor(t2, types2)[n2]
    ensures t1 == t2 && n1 == n2
  {
    PropertyAliasInjective(t1, n1, t2, n2);
  }

  /** The alias and type maps the asset pass builds for a thing, in one loop over its properties. */
  method PropertyMaps(thing: Thing) returns (aliases: map<string, string>, types: map<string, string>)
    ensures types == PropertyTypes(thing.properties)
    ensures aliases == AliasesFor(thing.id, types)
  {
    var props := thing.properties;
    ghost var pairs := seq(|props|, i requires 0 <= i < |props| => (props[i].name, props[i].ptype));
    aliases := map[];
    types := map[];
    for i := 0 to |props|
      invariant types == LastWins(pairs[..i])
      invariant aliases == AliasesFor(thing.id, types)
    {
      LastWinsStep(pairs, i);
      aliases := aliases[props[i].name := PropertyAlias(thing.id, props[i].name)];
      types := types[props[i].name := props[i].ptype];
    }
    assert pairs[..|props|] == pairs;
  }

  // ---------------------------------------------------------------------------
  // Units of measure
  // ---------------------------------------------------------------------------

  /**
   * The units map as extractUomMap builds it: every catalogue entry with
   * units is stored under its display name, a later entry with the same
   * display name (in map order) replacing an earlier one.
   */
  ghost predicate IsUnitsByName(types: map<string, PropertyTypeInfo>, uom: map<string, seq<string>>)
  {
    && (forall k :: k in types && |types[k].units| > 0 ==> types[k].name in uom)
    && (forall n :: n in uom ==>
          exists k :: k in types && |types[k].units| > 0 && types[k].name == n && uom[n] == types[k].units)
  }

  /** extractUomMap as written: the units keyed by display name. */
  method ExtractUomMapByName(types: map<string, PropertyTypeInfo>) returns (uom: map<string, seq<string>>)
    ensures IsUnitsByName(types, uom)
  {
    uom := map[];
    var remaining := types.Keys;
    while remaining != {}
      invariant remaining <= types.Keys
      invariant forall k :: k in types && k !in remaining && |types[k].units| > 0 ==> types[k].name in uom
      invariant forall n :: n in uom ==>
        exists k :: k in types && k !in remaining && |types[k].units| > 0 && types[k].name == n && uom[n] == types[k].units
      decreases remaining
    {
      var code :| code in remaining;
      var info := types[code];
      ghost var previous := uom;
      remaining := remaining - {code};
      if |info.units| > 0 {
        uom := uom[info.name := info.units];
        forall n | n in uom
          ensures exists k :: k in types && k !in remaining && |types[k].units| > 0 && types[k].name == n && uom[n] == types[k].units
        {
          if n == info.name {
            assert types[code].name == n && uom[n] == types[code].units;
          } else {
            var k :| k in types && k !in remaining + {code} && |types[k].units| > 0 && types[k].name == n && previous[n] == types[k].units;
            assert k !in remaining;
          }
        }
      }
    }
  }

  /** A one-entry catalogue whose display name differs from its type code. */
  function TemperatureCatalogue(): map<string, PropertyTypeInfo>
  {
    map["TEMPERATURE_C" := PropertyTypeInfo("Temperature", "TEMPERATURE_C", ["C"])]
  }

  /**
   * Keyed by display name, the units are never found: model definitions
   * look units up by the property's type code, and for a catalogue whose
   * names differ from its codes every lookup misses.
   */
  lemma UnitsByNameMissTypeCodes(uom: map<string, seq<string>>)
    requires IsUnitsByName(TemperatureCatalogue(), uom)
    ensures UnitFor("TEMPERATURE_C", uom) == None
    ensures UnitFor("TEMPERATURE_C", UnitsByType(TemperatureCatalogue())) == Some("C")
  {
    assert forall n :: n in uom ==> n == "Temperature";
  }

  /** The units of every catalogue entry that has some, keyed by type code as the lookups expect. */
  function UnitsByType(types: map<string, PropertyTypeInfo>): map<string, seq<string>>
  {
    map k | k in types && |types[k].units| > 0 :: types[k].units
  }

  /** The unit a definition gets for a type code is the first unit the catalogue lists for that code. */
  lemma UnitsByTypeLookup(types: map<string, PropertyTypeInfo>, ptype: string)
    ensures UnitFor(ptype, UnitsByType(types)) ==
      if ptype in types && |types[ptype].units| > 0 then Some(types[ptype].units[0]) else None
  {
  }

  /** extractUomMap, keyed by type code. */
  method ExtractUomMap(types: map<string, PropertyTypeInfo>) returns (uom: map<string, seq<string>>)
    ensures uom == UnitsByType(types)
  {
    uom := map[];
    var remaining := types.Keys;
    while remaining != {}
      invariant remaining <= types.Keys
      invariant uom == map k | k in types && k !in remaining && |types[k].units| > 0 :: types[k].units
      decreases remaining
    {
      var code :| code in remaining;
      var info := types[code];
      remaining := remaining - {code};
      if |info.units| > 0 {
        uom := uom[code := info.units];
      }
    }
  }

  // ---------------------------------------------------------------------------
  // Discovery
  // ---------------------------------------------------------------------------

  /** The ids of the listed models, in order. */
  function SummaryIds(items: seq<ModelSummary>): seq<string>
  {
    if items == [] then [] else SummaryIds(items[..|items| - 1]) + [items[|items| - 1].id]
  }

  function Ids<T>(pairs: seq<(string, T)>): (ids: seq<string>)
    ensures |ids| == |pairs| && forall i :: 0 <= i < |pairs| ==> ids[i] == pairs[i].0
  {
    seq(|pairs|, i requires 0 <= i < |pairs| => pairs[i].0)
  }

  lemma SummaryIdsSnoc(items: seq<ModelSummary>, j: nat)
    requires j < |items|
    ensures SummaryIds(items[..j + 1]) == SummaryIds(items[..j]) + [items[j].id]
  {
    assert items[..j + 1][..j] == items[..j];
  }

  lemma IdsAppend<T>(a: seq<(string, T)>, b: seq<(string, T)>)
    ensures Ids(a + b) == Ids(a) + Ids(b)
  {
  }

  /** The (id, model) pairs of the successful model descriptions among the calls, in order. */
  ghost function DescribedModels(w: seq<Call>): seq<(string, AssetModel)>
  {
    if w == [] then []
    else
      var c := w[|w| - 1];
      DescribedModels(w[..|w| - 1])
        + if c.DescribeAssetModelCall? && c.model.Ok? then [(c.describedId, c.model.value)] else []
  }

  /**
   * The key a described model is indexed under: the key of its measurement
   * names, if it has properties and some of them are key properties.
   */
  function ModelKey(model: AssetModel): (key: Option<string>)
    ensures key == BuildModelKeyFromModel(model)
  {
    if |model.properties| > 0 then BuildModelKeyFromModel(model) else None
  }

  /**
   * The (key, model id) pairs of the described models that have a key, in
   * order: the insertions getSiteWiseModels makes into the models map.
   */
  function KeyedModels(described: seq<(string, AssetModel)>, keyOf: AssetModel -> Option<string>): (keyed: seq<(string, string)>)
    ensures |keyed| <= |described|
  {
    if described == [] then []
    else
      var last := described[|described| - 1];
      KeyedModels(described[..|described| - 1], keyOf)
        + if keyOf(last.1).Some? then [(keyOf(last.1).value, last.0)] else []
  }

  /** Every keyed entry comes from a described model with that key. */
  lemma {:induction false} KeyedModelsSound(described: seq<(string, AssetModel)>, keyOf: AssetModel -> Option<string>)
    ensures forall p: (string, string) :: p in KeyedModels(described, keyOf) ==>
      exists m :: (p.1, m) in described && keyOf(m) == Some(p.0)
  {
    if described != [] {
      var front := described[..|described| - 1];
      var last := described[|described| - 1];
      KeyedModelsSound(front, keyOf);
      var kf := KeyedModels(front, keyOf);
      var kl := if keyOf(last.1).Some? then [(keyOf(last.1).value, last.0)] else [];
      assert KeyedModels(described, keyOf) == kf + kl;
      forall p: (string, string) | p in kf + kl
        ensures exists m :: (p.1, m) in described && keyOf(m) == Some(p.0)
      {
        if p in kf {
          var m :| (p.1, m) in front && keyOf(m) == Some(p.0);
          assert (p.1, m) in described;
        } else {
          assert (p.1, last.1) == last;
        }
      }
    }
  }

  /** Every described model with a key has a keyed entry. */
  lemma {:induction false} KeyedModelsComplete(described: seq<(string, AssetModel)>, keyOf: AssetModel -> Option<string>)
    ensures forall q :: q in described && keyOf(q.1).Some? ==> (keyOf(q.1).value, q.0) in KeyedModels(described, keyOf)
  {
    if described != [] {
      var front := described[..|described| - 1];
      var last := described[|described| - 1];
      KeyedModelsComplete(front, keyOf);
      var kf := KeyedModels(front, keyOf);
      var kl := if keyOf(last.1).Some? then [(keyOf(last.1).value, last.0)] else [];
      assert KeyedModels(described, keyOf) == kf + kl;
      forall q | q in described && keyOf(q.1).Some?
        ensures (keyOf(q.1).value, q.0) in kf + kl
      {
        if q in front {
          assert (keyOf(q.1).value, q.0) in kf;
        } else {
          assert q == last;
        }
      }
    }
  }

  /** Discovery keeps a definition for every described id, and for nothing else. */
  lemma DefinitionsOfDescribed(described: seq<(string, AssetModel)>)
    ensures forall id :: id in LastWins(described) <==> id in Ids(described)
  {
    LastWinsDomain(described);
    forall id | id in Ids(described)
      ensures id in LastWins(described)
    {
      var i :| 0 <= i < |described| && Ids(described)[i] == id;
    }
  }

  /** Every key of the models map points at a described model with that key. */
  lemma ModelIndexSound(described: seq<(string, AssetModel)>, keyOf: AssetModel -> Option<string>)
    ensures forall key :: key in LastWins(KeyedModels(described, keyOf)) ==>
      exists m :: (LastWins(KeyedModels(described, keyOf))[key], m) in described && keyOf(m) == Some(key)
  {
    var keyed := KeyedModels(described, keyOf);
    var models := LastWins(keyed);
    LastWinsDomain(keyed);
    KeyedModelsSound(described, keyOf);
    forall key | key in models
      ensures exists m :: (models[key], m) in described && keyOf(m) == Some(key)
    {
      var j :| 0 <= j < |keyed| && keyed[j].0 == key && keyed[j].1 == models[key];
      assert keyed[j] in keyed;
    }
  }

  /** The key of every described model that has one is in the models map. */
  lemma ModelIndexComplete(described: seq<(string, AssetModel)>, keyOf: AssetModel -> Option<string>)
    ensures forall q :: q in described && keyOf(q.1).Some? ==> keyOf(q.1).value in LastWins(KeyedModels(described, keyOf))
  {
    var keyed := KeyedModels(described, keyOf);
    LastWinsDomain(keyed);
    KeyedModelsComplete(described, keyOf);
    forall q | q in described && keyOf(q.1).Some?
      ensures keyOf(q.1).value in LastWins(keyed)
    {
      var j :| 0 <= j < |keyed| && keyed[j] == (keyOf(q.1).value, q.0);
    }
  }

  /** The asset summary's entry in the asset index: under its external id, if it has one. */
  function AssetEntry(modelId: string, s: AssetSummary): seq<(string, AssetDefinition)>
  {
    if s.externalId.Some? then [(s.externalId.value, AssetDefinition(s.id, modelId, s.externalId.value))] else []
  }

  /** The asset summaries of a page that carry an external id, as (thing id, definition) pairs in order. */
  function IndexedAssets(modelId: string, items: seq<AssetSummary>): (pairs: seq<(string, AssetDefinition)>)
    ensures |pairs| <= |items|
  {
    if items == [] then []
    else IndexedAssets(modelId, items[..|items| - 1]) + AssetEntry(modelId, items[|items| - 1])
  }

  /** Every entry is stored under the thing id of its external id and names the listed model. */
  lemma {:induction false} IndexedAssetsFacts(modelId: string, items: seq<AssetSummary>)
    ensures forall p :: p in IndexedAssets(modelId, items) ==> p.1.thingId == p.0 && p.1.modelId == modelId
  {
    if items != [] {
      IndexedAssetsFacts(modelId, items[..|items| - 1]);
    }
  }

  /** Every listed asset with an external id is indexed under it: this is where its entry sits. */
  lemma {:induction false} IndexedAssetPosition(modelId: string, items: seq<AssetSummary>, s: AssetSummary)
    returns (j: nat)
    requires s in items && s.externalId.Some?
    ensures j < |IndexedAssets(modelId, items)| && IndexedAssets(modelId, items)[j].0 == s.externalId.value
  {
    var front := items[..|items| - 1];
    var last := items[|items| - 1];
    if s in front {
      j := IndexedAssetPosition(modelId, front, s);
    } else {
      assert s == last;
      j := |IndexedAssets(modelId, front)|;
    }
  }

  lemma {:induction false} IndexedAssetsAppend(modelId: string, a: seq<AssetSummary>, b: seq<AssetSummary>)
    ensures IndexedAssets(modelId, a + b) == IndexedAssets(modelId, a) + IndexedAssets(modelId, b)
    decreases |b|
  {
    if b != [] {
      var l := |b| - 1;
      assert (a + b)[..|a + b| - 1] == a + b[..l];
      IndexedAssetsAppend(modelId, a, b[..l]);
    } else {
      assert a + b == a;
    }
  }

  lemma DescribedModelsOne(c: Call)
    ensures DescribedModels([c]) == if c.DescribeAssetModelCall? && c.model.Ok? then [(c.describedId, c.model.value)] else []
  {
    assert [c][..0] == [];
  }

  /** The definitions and key index hold exactly what the described models say, later descriptions winning. */
  ghost predicate Indexed(models: map<string, string>, definitions: map<string, AssetModel>, described: seq<(string, AssetModel)>)
  {
    definitions == LastWins(described) && models == LastWins(KeyedModels(described, ModelKey))
  }

  /** One more describe call extends the described models and, when it lists the next item, their ids. */
  lemma DescribeStep(described: seq<(string, AssetModel)>, w: seq<Call>, c: Call, items: seq<ModelSummary>, j: nat)
    requires j < |items| && c.DescribeAssetModelCall? && c.describedId == items[j].id
    requires Ids(DescribedModels(w)) == SummaryIds(items[..j])
    ensures described + DescribedModels(w + [c]) == (described + DescribedModels(w)) + DescribedModels([c])
    ensures c.model.Ok? ==> Ids(DescribedModels(w + [c])) == SummaryIds(items[..j + 1])
  {
    DescribedModelsAppend(w, [c]);
    DescribedModelsOne(c);
    IdsAppend(DescribedModels(w), DescribedModels([c]));
    SummaryIdsSnoc(items, j);
  }

  lemma {:induction false} SummaryIdsAppend(a: seq<ModelSummary>, b: seq<ModelSummary>)
    ensures SummaryIds(a + b) == SummaryIds(a) + SummaryIds(b)
    decreases |b|
  {
    if b != [] {
      var l := |b| - 1;
      SummaryIdsAppend(a, b[..l]);
      assert (a + b)[..|a + b| - 1] == a + b[..l];
      AppendAssoc(SummaryIds(a), SummaryIds(b[..l]), [b[l].id]);
    } else {
      assert a + b == a;
    }
  }

  /** A call that describes nothing adds no described model. */
  lemma DescribedModelsSkip(w: seq<Call>, c: Call, v: seq<Call>)
    requires !c.DescribeAssetModelCall?
    ensures DescribedModels(w + [c] + v) == DescribedModels(w) + DescribedModels(v)
  {
    DescribedModelsAppend(w, [c]);
    DescribedModelsOne(c);
    assert DescribedModels(w + [c]) == DescribedModels(w);
    DescribedModelsAppend(w + [c], v);
  }

  /**
   * The ids of the pages before a token followed by those of the page it
   * names are the ids of the pages before the next token, or of all pages
   * when there is none.
   */

  lemma ModelPageStep(pages: seq<seq<ModelSummary>>, token: Option<nat>)
    requires PageIndex(token) <= |pages|
    ensures PageAt(pages, token).next.Some? ==>
      SummaryIds(Flatten(pages[..PageIndex(token)])) + SummaryIds(PageAt(pages, token).items)
        == SummaryIds(Flatten(pages[..PageAt(pages, token).next.value]))
    ensures PageAt(pages, token).next.None? ==>
      SummaryIds(Flatten(pages[..PageIndex(token)])) + SummaryIds(PageAt(pages, token).items)
        == SummaryIds(Flatten(pages))
  {
    var k := PageIndex(token);
    if k + 1 < |pages| {
      ModelPageMiddle(pages, k);
    } else if k + 1 == |pages| {
      ModelPageLast(pages, k);
    } else {
      ModelPageBeyond(pages, k);
    }
  }

  /** A page with a successor: its ids follow those of the pages before it. */
  lemma ModelPageMiddle(pages: seq<seq<ModelSummary>>, k: nat)
    requires k + 1 < |pages|
    ensures PageAt(pages, Some(k)) == Page(pages[k], Some(k + 1))
    ensures SummaryIds(Flatten(pages[..k])) + SummaryIds(pages[k]) == SummaryIds(Flatten(pages[..k + 1]))
  {
    FlattenPrefixStep(pages, k);
    SummaryIdsAppend(Flatten(pages[..k]), pages[k]);
  }

  /** The last page completes the listing. */
  lemma ModelPageLast(pages: seq<seq<ModelSummary>>, k: nat)
    requires k + 1 == |pages|
    ensures PageAt(pages, Some(k)) == Page(pages[k], None)
    ensures SummaryIds(Flatten(pages[..k])) + SummaryIds(pages[k]) == SummaryIds(Flatten(pages))
  {
    FlattenPrefixStep(pages, k);
    SummaryIdsAppend(Flatten(pages[..k]), pages[k]);
    assert pages[..k + 1] == pages;
  }

  /** Past the last page (an empty listing) nothing more is listed. */
  lemma ModelPageBeyond(pages: seq<seq<ModelSummary>>, k: nat)
    requires k == |pages|
    ensures PageAt(pages, Some(k)) == Page([], None)
    ensures SummaryIds(Flatten(pages[..k])) + SummaryIds([]) == SummaryIds(Flatten(pages))
  {
    assert pages[..k] == pages;
  }


  lemma {:induction false} DescribedModelsAppend(a: seq<Call>, b: seq<Call>)
    ensures DescribedModels(a + b) == DescribedModels(a) + DescribedModels(b)
    decreases |b|
  {
    if b != [] {
      var l := |b| - 1;
      assert (a + b)[..|a + b| - 1] == a + b[..l];
      DescribedModelsAppend(a, b[..l]);
    } else {
      assert a + b == a;
    }
  }

  /** The asset index entries of the given models, model after model, each over all pages of its listing. */
  function AssetsOfModels(assetPages: string -> seq<seq<AssetSummary>>, order: seq<string>): seq<(string, AssetDefinition)>
  {
    if order == [] then []
    else
      var m := order[|order| - 1];
      AssetsOfModels(assetPages, order[..|order| - 1]) + IndexedAssets(m, Flatten(assetPages(m)))
  }

  /** Every entry is stored under the thing id of its external id and names one of the models. */
  lemma {:induction false} AssetsOfModelsFacts(assetPages: string -> seq<seq<AssetSummary>>, order: seq<string>)
    ensures forall p :: p in AssetsOfModels(assetPages, order) ==> p.1.thingId == p.0 && p.1.modelId in order
  {
    if order != [] {
      var m := order[|order| - 1];
      var front := order[..|order| - 1];
      AssetsOfModelsFacts(assetPages, front);
      IndexedAssetsFacts(m, Flatten(assetPages(m)));
      forall p | p in AssetsOfModels(assetPages, order)
        ensures p.1.thingId == p.0 && p.1.modelId in order
      {
        if p in AssetsOfModels(assetPages, front) {
          var i :| 0 <= i < |front| && front[i] == p.1.modelId;
          assert order[i] == front[i];
        }
      }
    }
  }

  /**
   * What asset discovery knows: every entry is stored under the thing id of
   * its external id and belongs to one of the listed models.
   */
  lemma DiscoveredAssetsFacts(assetPages: string -> seq<seq<AssetSummary>>, order: seq<string>)
    ensures forall x :: x in LastWins(AssetsOfModels(assetPages, order)) ==>
      LastWins(AssetsOfModels(assetPages, order))[x].thingId == x
      && LastWins(AssetsOfModels(assetPages, order))[x].modelId in order
  {
    var pairs := AssetsOfModels(assetPages, order);
    LastWinsDomain(pairs);
    AssetsOfModelsFacts(assetPages, order);
    forall x | x in LastWins(pairs)
      ensures LastWins(pairs)[x].thingId == x && LastWins(pairs)[x].modelId in order
    {
      var j :| 0 <= j < |pairs| && pairs[j].0 == x && pairs[j].1 == LastWins(pairs)[x];
      assert pairs[j] in pairs;
    }
  }

  /** Every asset with an external id, listed for one of the models, is discovered under that id. */
  lemma DiscoveredAssetsCover(assetPages: string -> seq<seq<AssetSummary>>, order: seq<string>)
    ensures forall m, s :: m in order && s in Flatten(assetPages(m)) && s.externalId.Some? ==>
      s.externalId.value in LastWins(AssetsOfModels(assetPages, order))
  {
    var pairs := AssetsOfModels(assetPages, order);
    LastWinsDomain(pairs);
    forall m, s | m in order && s in Flatten(assetPages(m)) && s.externalId.Some?
      ensures s.externalId.value in LastWins(pairs)
    {
      var k :| 0 <= k < |order| && order[k] == m;
      var i := AssetPosition(assetPages, order, k, s);
    }
  }

  /** Where the entry of a listed asset with an external id sits among the asset index entries. */
  lemma AssetPosition(assetPages: string -> seq<seq<AssetSummary>>, order: seq<string>, k: nat, s: AssetSummary)
    returns (i: nat)
    requires k < |order| && s in Flatten(assetPages(order[k])) && s.externalId.Some?
    ensures i < |AssetsOfModels(assetPages, order)| && AssetsOfModels(assetPages, order)[i].0 == s.externalId.value
  {
    var m := order[k];
    var rest := AssetsOfModelsSplit(assetPages, order, k + 1);
    assert order[..k + 1][..k] == order[..k];
    var j := IndexedAssetPosition(m, Flatten(assetPages(m)), s);
    i := |AssetsOfModels(assetPages, order[..k])| + j;
  }

  /** The entries of a prefix of the models come first. */
  lemma {:induction false} AssetsOfModelsSplit(assetPages: string -> seq<seq<AssetSummary>>, order: seq<string>, n: nat)
    returns (rest: seq<(string, AssetDefinition)>)
    requires n <= |order|
    ensures AssetsOfModels(assetPages, order) == AssetsOfModels(assetPages, order[..n]) + rest
    decreases |order| - n
  {
    if n == |order| {
      assert order[..n] == order;
      rest := [];
    } else {
      var rest' := AssetsOfModelsSplit(assetPages, order, n + 1);
      assert order[..n + 1][..n] == order[..n];
      var own := IndexedAssets(order[n], Flatten(assetPages(order[n])));
      AppendAssoc(AssetsOfModels(assetPages, order[..n]), own, rest');
      rest := own + rest';
    }
  }

  /** Adding one more model's entries extends the asset index entries. */
  lemma AssetsOfModelsSnoc(assetPages: string -> seq<seq<AssetSummary>>, order: seq<string>, m: string)
    ensures AssetsOfModels(assetPages, order + [m]) == AssetsOfModels(assetPages, order) + IndexedAssets(m, Flatten(assetPages(m)))
  {
    assert (order + [m])[..|order|] == order;
  }

  /**
   * The entries of the pages before a token followed by those of the page
   * it names are the entries of the pages before the next token, or of all
   * pages when there is none.
   */
  lemma AssetPageStep(modelId: string, pages: seq<seq<AssetSummary>>, token: Option<nat>)
    requires PageIndex(token) <= |pages|
    ensures PageAt(pages, token).next.Some? ==>
      IndexedAssets(modelId, Flatten(pages[..PageIndex(token)])) + IndexedAssets(modelId, PageAt(pages, token).items)
        == IndexedAssets(modelId, Flatten(pages[..PageAt(pages, token).next.value]))
    ensures PageAt(pages, token).next.None? ==>
      IndexedAssets(modelId, Flatten(pages[..PageIndex(token)])) + IndexedAssets(modelId, PageAt(pages, token).items)
        == IndexedAssets(modelId, Flatten(pages))
  {
    var k := PageIndex(token);
    var p := PageAt(pages, token);
    if k < |pages| {
      assert p.items == pages[k] && (p.next.Some? ==> p.next.value == k + 1) && (p.next.None? ==> k + 1 == |pages|);
      assert IndexedAssets(modelId, Flatten(pages[..k])) + IndexedAssets(modelId, pages[k])
          == IndexedAssets(modelId, Flatten(pages[..k + 1])) by {
        FlattenPrefixStep(pages, k);
        IndexedAssetsAppend(modelId, Flatten(pages[..k]), pages[k]);
      }
      if p.next.None? {
        assert pages[..k + 1] == pages;
      }
    } else {
      assert p.items == [] && p.next.None?;
      assert pages[..k] == pages;
      assert IndexedAssets(modelId, Flatten(pages)) + IndexedAssets(modelId, []) == IndexedAssets(modelId, Flatten(pages)) by {
        assert IndexedAssets(modelId, []) == [];
      }
    }
  }

  /** The insertions getSiteWiseAssets makes for the asset summaries of one page, in order. */
  method AddAssets(assets: map<string, AssetDefinition>, modelId: string, items: seq<AssetSummary>,
                   ghost before: seq<(string, AssetDefinition)>)
    returns (assets': map<string, AssetDefinition>)
    requires assets == LastWins(before)
    ensures assets' == LastWins(before + IndexedAssets(modelId, items))
  {
    assets' := assets;
    assert before + IndexedAssets(modelId, items[..0]) == before;
    for j := 0 to |items|
      invariant assets' == LastWins(before + IndexedAssets(modelId, items[..j]))
    {
      var s := items[j];
      ghost var done := before + IndexedAssets(modelId, items[..j]);
      assert items[..j + 1][..j] == items[..j];
      AppendAssoc(before, IndexedAssets(modelId, items[..j]), AssetEntry(modelId, s));
      if s.externalId.Some? {
        LastWinsSnoc(done, (s.externalId.value, AssetDefinition(s.id, modelId, s.externalId.value)));
        assets' := assets'[s.externalId.value := AssetDefinition(s.id, modelId, s.externalId.value)];
      } else {
        assert done + AssetEntry(modelId, s) == done;
      }
    }
    assert items[..|items|] == items;
  }

  /** The insertion getSiteWiseModels makes for one described model: under its key, if it has one. */
  method IndexModel(models: map<string, string>, id: string, model: AssetModel, ghost described: seq<(string, AssetModel)>)
    returns (models': map<string, string>)
    requires models == LastWins(KeyedModels(described, ModelKey))
    ensures models' == LastWins(KeyedModels(described + [(id, model)], ModelKey))
  {
    assert (described + [(id, model)])[..|described|] == described;
    ghost var entry := if ModelKey(model).Some? then [(ModelKey(model).value, id)] else [];
    assert KeyedModels(described + [(id, model)], ModelKey) == KeyedModels(described, ModelKey) + entry;
    if entry == [] {
      assert KeyedModels(described, ModelKey) + entry == KeyedModels(described, ModelKey);
    }
    models' := models;
    if |model.properties| > 0 {
      var key := BuildModelKeyFromModel(model);
      assert key == ModelKey(model);
      if key.Some? {
        LastWinsSnoc(KeyedModels(described, ModelKey), (key.value, id));
        models' := models[key.value := id];
      }
    }
  }

  // ---------------------------------------------------------------------------
  // Aligning the models already created
  // ---------------------------------------------------------------------------

  /** What the first alignment pass does for one discovered asset. */
  datatype Decision =
    | Skip
    /** Index the model under the thing's key, after updating it when `update` is set. */
    | Adopt(thingKey: string, model: AssetModel, update: bool)

  /**
   * alignAlreadyCreatedModels, for one asset: skip it when its thing or its
   * model is unknown, when the model has no properties or no key, or when the
   * two keys agree or one is empty; otherwise adopt the model under the
   * thing's key, updating it unless the thing is contained in the model.
   */
  function Reconcile(asset: AssetDefinition, things: map<string, Thing>, definitions: map<string, AssetModel>): (d: Decision)
    ensures d.Adopt? ==>
      && asset.thingId in things && asset.modelId in definitions
      && d.model == definitions[asset.modelId]
      && d.thingKey == BuildModelKeyFromThing(things[asset.thingId]) && d.thingKey != ""
      && ModelKey(d.model).Some? && ModelKey(d.model).value != d.thingKey
  {
    if asset.thingId !in things then Skip
    else
      var thingKey := BuildModelKeyFromThing(things[asset.thingId]);
      if asset.modelId !in definitions then Skip
      else
        var model := definitions[asset.modelId];
        if |model.properties| == 0 then Skip
        else
          match BuildModelKeyFromModel(model)
          case None => Skip
          case Some(modelKey) =>
            if modelKey != thingKey && thingKey != "" && modelKey != "" then
              Adopt(thingKey, model, !IsThingContainedInModel(modelKey, thingKey))
            else Skip
  }

  /** The names a thing's key is built from: those of its properties with a type. */
  ghost function ThingNames(thing: Thing): set<string>
  {
    TypedNames(PropertyTypes(thing.properties))
  }

  /** The names a model's key is built from: those of its named Measurement properties. */
  ghost function KeyPropertyNames(model: AssetModel): set<string>
  {
    set i | 0 <= i < |model.properties| && IsKeyProperty(model.properties[i]) :: model.properties[i].name
  }

  /** The key of no names is empty. */
  lemma KeyOfNothing()
    ensures KeyOf({}) == ""
  {
    assert SortedElements({}) == [];
  }

  /**
   * An adopted model is updated exactly when the thing has a typed property
   * the model has no Measurement for (names free of the key separator).
   */
  lemma ReconcileUpdates(asset: AssetDefinition, things: map<string, Thing>, definitions: map<string, AssetModel>)
    requires Reconcile(asset, things, definitions).Adopt?
    requires Representable(ThingNames(things[asset.thingId]))
    requires forall i :: 0 <= i < |definitions[asset.modelId].properties| ==>
      KeySeparator !in definitions[asset.modelId].properties[i].name
    ensures Reconcile(asset, things, definitions).update <==>
      !(ThingNames(things[asset.thingId]) <= KeyPropertyNames(definitions[asset.modelId]))
  {
    var d := Reconcile(asset, things, definitions);
    var names := ThingNames(things[asset.thingId]);
    var model := definitions[asset.modelId];
    KeyOfNothing();
    assert names != {};
    KeyOfNames(names);
    ModelKeyNames(model);
    assert KeyNames(BuildModelKeyFromModel(model).value) == KeyPropertyNames(model);
  }

  /** Some asset's decision adopts the model `id` under `key`. */
  ghost predicate AdoptedBy(assets: map<string, AssetDefinition>, things: map<string, Thing>,
                            definitions: map<string, AssetModel>, key: string, id: string)
  {
    exists t :: t in assets && Adopts(Reconcile(assets[t], things, definitions), key, id)
  }

  predicate Adopts(d: Decision, key: string, id: string)
  {
    d.Adopt? && d.thingKey == key && d.model.id == id
  }

  /**
   * The models index after adopting, in turn, the models of the assets
   * `order`: a later adoption under a key replaces an earlier one.
   */
  function Adoptions(models: map<string, string>, assets: map<string, AssetDefinition>, things: map<string, Thing>,
                     definitions: map<string, AssetModel>, order: seq<string>): (m: map<string, string>)
    requires forall i :: 0 <= i < |order| ==> order[i] in assets
    ensures models.Keys <= m.Keys
    decreases |order|
  {
    if order == [] then models
    else
      var m := Adoptions(models, assets, things, definitions, order[..|order| - 1]);
      var d := Reconcile(assets[order[|order| - 1]], things, definitions);
      if d.Adopt? then m[d.thingKey := d.model.id] else m
  }

  /** Adopting the model of one more asset. */
  lemma AdoptionsSnoc(models: map<string, string>, assets: map<string, AssetDefinition>, things: map<string, Thing>,
                      definitions: map<string, AssetModel>, order: seq<string>, t: string)
    requires forall i :: 0 <= i < |order| ==> order[i] in assets
    requires t in assets
    ensures forall i :: 0 <= i < |order + [t]| ==> (order + [t])[i] in assets
    ensures var d := Reconcile(assets[t], things, definitions);
      Adoptions(models, assets, things, definitions, order + [t]) ==
        if d.Adopt? then Adoptions(models, assets, things, definitions, order)[d.thingKey := d.model.id]
        else Adoptions(models, assets, things, definitions, order)
  {
    assert (order + [t])[..|order|] == order;
  }

  /** Every entry of the index is an original one or an adoption by some asset. */
  lemma {:induction false} AdoptionsFrom(models: map<string, string>, assets: map<string, AssetDefinition>,
                                         things: map<string, Thing>, definitions: map<string, AssetModel>,
                                         order: seq<string>)
    requires forall i :: 0 <= i < |order| ==> order[i] in assets
    ensures var m := Adoptions(models, assets, things, definitions, order);
      forall k :: k in m ==> (k in models && m[k] == models[k]) || AdoptedBy(assets, things, definitions, k, m[k])
    decreases |order|
  {
    if order != [] {
      var t := order[|order| - 1];
      AdoptionsFrom(models, assets, things, definitions, order[..|order| - 1]);
      var d := Reconcile(assets[t], things, definitions);
      if d.Adopt? {
        assert Adopts(Reconcile(assets[t], things, definitions), d.thingKey, d.model.id);
      }
    }
  }

  /** The key of every adopting asset of `order` is indexed. */
  lemma {:induction false} AdoptionsCover(models: map<string, string>, assets: map<string, AssetDefinition>,
                                          things: map<string, Thing>, definitions: map<string, AssetModel>,
                                          order: seq<string>)
    requires forall i :: 0 <= i < |order| ==> order[i] in assets
    ensures forall i :: 0 <= i < |order| && Reconcile(assets[order[i]], things, definitions).Adopt? ==>
      Reconcile(assets[order[i]], things, definitions).thingKey in Adoptions(models, assets, things, definitions, order)
    decreases |order|
  {
    if order != [] {
      var prefix := order[..|order| - 1];
      AdoptionsCover(models, assets, things, definitions, prefix);
      forall i | 0 <= i < |prefix| ensures prefix[i] == order[i] {}
    }
  }

  /** A key no asset of `order` adopts keeps its entry, or its absence. */
  lemma {:induction false} AdoptionsKeep(models: map<string, string>, assets: map<string, AssetDefinition>,
                                         things: map<string, Thing>, definitions: map<string, AssetModel>,
                                         order: seq<string>, key: string)
    requires forall i :: 0 <= i < |order| ==> order[i] in assets
    requires forall i :: 0 <= i < |order| && Reconcile(assets[order[i]], things, definitions).Adopt? ==>
      Reconcile(assets[order[i]], things, definitions).thingKey != key
    ensures key in Adoptions(models, assets, things, definitions, order) <==> key in models
    ensures key in models ==> Adoptions(models, assets, things, definitions, order)[key] == models[key]
    decreases |order|
  {
    if order != [] {
      AdoptionsKeep(models, assets, things, definitions, order[..|order| - 1], key);
    }
  }

  /** Under a key some asset of `order` adopts, the index holds the model of the last such asset. */
  lemma {:induction false} AdoptionsLatest(models: map<string, string>, assets: map<string, AssetDefinition>,
                                           things: map<string, Thing>, definitions: map<string, AssetModel>,
                                           order: seq<string>, i: nat)
    requires forall j :: 0 <= j < |order| ==> order[j] in assets
    requires i < |order| && Reconcile(assets[order[i]], things, definitions).Adopt?
    requires forall j :: i < j < |order| && Reconcile(assets[order[j]], things, definitions).Adopt? ==>
      Reconcile(assets[order[j]], things, definitions).thingKey != Reconcile(assets[order[i]], things, definitions).thingKey
    ensures var d := Reconcile(assets[order[i]], things, definitions);
      d.thingKey in Adoptions(models, assets, things, definitions, order)
      && Adoptions(models, assets, things, definitions, order)[d.thingKey] == d.model.id
    decreases |order|
  {
    if i < |order| - 1 {
      AdoptionsLatest(models, assets, things, definitions, order[..|order| - 1], i);
    }
  }

  /** At most ModelPollRetries describes of the model `modelId`: the wait for it to become active. */
  ghost predicate ModelPolls(u: seq<Call>, modelId: string)
  {
    && |u| <= ModelPollRetries
    && forall k :: 0 <= k < |u| ==> u[k].DescribeAssetModelCall? && u[k].describedId == modelId
  }

  /**
   * The calls of the update of an adopted model with a thing's property
   * types: the union update when the thing has properties the model lacks,
   * a failed update ending them, then the wait for the model to become active.
   */
  ghost predicate ModelUpdated(v: seq<Call>, model: AssetModel, types: map<string, string>, catalog: TypeCatalog,
                               uomMap: map<string, seq<string>>, err: Option<Error>)
  {
    if Missing(model.properties, types) == {} then err.None? && ModelPolls(v, model.id)
    else
      && v != [] && v[0].UpdateAssetModelCall? && IsUnionUpdate(v[0].update, model, types, catalog, uomMap)
      && (v[0].updated.Some? ==> |v| == 1 && err == v[0].updated)
      && (v[0].updated.None? ==> err.None? && ModelPolls(v[1..], model.id))
  }

  /**
   * The calls alignAlreadyCreatedModels makes for one asset: the update of
   * the adopted model when the decision asks for one, and none otherwise.
   */
  ghost predicate Reconciled(v: seq<Call>, asset: AssetDefinition, things: map<string, Thing>,
                             definitions: map<string, AssetModel>, catalog: TypeCatalog,
                             uomMap: map<string, seq<string>>, err: Option<Error>)
  {
    var d := Reconcile(asset, things, definitions);
    if d.Adopt? && d.update then ModelUpdated(v, d.model, PropertyTypes(things[asset.thingId].properties), catalog, uomMap, err)
    else v == [] && err.None?
  }

  /**
   * The distinct assets `order` were visited in turn with the calls `parts`;
   * only the last visit can have ended with the error `err`.
   */
  ghost predicate Visited(assets: map<string, AssetDefinition>, things: map<string, Thing>,
                          definitions: map<string, AssetModel>, catalog: TypeCatalog, uomMap: map<string, seq<string>>,
                          order: seq<string>, parts: seq<seq<Call>>, err: Option<Error>)
  {
    && |parts| == |order|
    && (err.Some? ==> order != [])
    && (forall i :: 0 <= i < |order| ==> order[i] in assets)
    && (forall i, j :: 0 <= i < j < |order| ==> order[i] != order[j])
    && (forall i :: 0 <= i < |order| ==>
          Reconciled(parts[i], assets[order[i]], things, definitions, catalog, uomMap, if i == |order| - 1 then err else None))
  }

  /** The keys not yet visited are `remaining`; the others were visited in the order `order`. */
  ghost predicate Unvisited(keys: set<string>, remaining: set<string>, order: seq<string>)
  {
    && remaining <= keys
    && (forall i :: 0 <= i < |order| ==> order[i] in keys && order[i] !in remaining)
    && (forall t :: t in keys && t !in remaining ==> t in order)
  }

  /** Visiting one more remaining key keeps Unvisited. */
  lemma UnvisitedStep(keys: set<string>, remaining: set<string>, order: seq<string>, t: string)
    requires Unvisited(keys, remaining, order) && t in remaining
    ensures t !in order
    ensures Unvisited(keys, remaining - {t}, order + [t])
  {
    forall i | 0 <= i < |order| + 1
      ensures (order + [t])[i] in keys && (order + [t])[i] !in remaining - {t}
    {
      if i < |order| {
        assert (order + [t])[i] == order[i];
      }
    }
  }

  /**
   * When no asset's model needs an update, alignAlreadyCreatedModels makes
   * no call and fails on nothing; so in particular with no discovered asset.
   */
  lemma NoUpdateNoCalls(assets: map<string, AssetDefinition>, things: map<string, Thing>,
                        definitions: map<string, AssetModel>, catalog: TypeCatalog, uomMap: map<string, seq<string>>,
                        order: seq<string>, parts: seq<seq<Call>>, err: Option<Error>)
    requires Visited(assets, things, definitions, catalog, uomMap, order, parts, err)
    requires forall t :: t in assets ==>
      !Reconcile(assets[t], things, definitions).Adopt? || !Reconcile(assets[t], things, definitions).update
    ensures Flatten(parts) == [] && err.None?
  {
    FlattenEmpty(parts);
    if order != [] {
      var n := |order| - 1;
      assert Reconciled(parts[n], assets[order[n]], things, definitions, catalog, uomMap, err);
    }
  }

  /** Visiting one more asset extends Visited. */
  lemma VisitedSnoc(assets: map<string, AssetDefinition>, things: map<string, Thing>,
                    definitions: map<string, AssetModel>, catalog: TypeCatalog, uomMap: map<string, seq<string>>,
                    order: seq<string>, parts: seq<seq<Call>>, t: string, v: seq<Call>, err: Option<Error>)
    requires Visited(assets, things, definitions, catalog, uomMap, order, parts, None)
    requires t in assets && t !in order
    requires Reconciled(v, assets[t], things, definitions, catalog, uomMap, err)
    ensures Visited(assets, things, definitions, catalog, uomMap, order + [t], parts + [v], err)
  {
    var order', parts' := order + [t], parts + [v];
    forall i | 0 <= i < |order'|
      ensures Reconciled(parts'[i], assets[order'[i]], things, definitions, catalog, uomMap, if i == |order'| - 1 then err else None)
    {
      if i < |order| {
        assert parts'[i] == parts[i] && order'[i] == order[i];
      }
    }
  }

  // ---------------------------------------------------------------------------
  // Creating models and assets
  // ---------------------------------------------------------------------------

  /** A model name already taken: the creation is retried under the next name. */
  predicate IsConflict(r: Result<string, Error>)
  {
    r.Err? && r.error.ResourceAlreadyExists?
  }

  /** Call c asks to create a model named `name` with one Measurement definition per property. */
  ghost predicate Attempt(c: Call, name: string, properties: map<string, string>, catalog: TypeCatalog,
                          uomMap: map<string, seq<string>>)
  {
    c.CreateAssetModelCall? && c.modelName == name && DefinesExactly(c.definitions, properties, catalog, uomMap)
  }

  /** The calls `w` try the names for increments 0, 1, ... in turn. */
  ghost predicate Attempts(w: seq<Call>, thingName: string, properties: map<string, string>, catalog: TypeCatalog,
                           uomMap: map<string, seq<string>>)
  {
    forall i :: 0 <= i < |w| ==> Attempt(w[i], ComposeModelName(thingName, i), properties, catalog, uomMap)
  }

  lemma AttemptsSnoc(w: seq<Call>, c: Call, thingName: string, properties: map<string, string>, catalog: TypeCatalog,
                     uomMap: map<string, seq<string>>)
    requires Attempts(w, thingName, properties, catalog, uomMap)
    requires Attempt(c, ComposeModelName(thingName, |w|), properties, catalog, uomMap)
    ensures Attempts(w + [c], thingName, properties, catalog, uomMap)
  {
    forall i | 0 <= i < |w + [c]|
      ensures Attempt((w + [c])[i], ComposeModelName(thingName, i), properties, catalog, uomMap)
    {
      if i < |w| {
        assert (w + [c])[i] == w[i];
      }
    }
  }

  /** Every call in `w` was a model creation refused because the name was taken. */
  ghost predicate Conflicts(w: seq<Call>)
  {
    forall i :: 0 <= i < |w| ==> w[i].CreateAssetModelCall? && IsConflict(w[i].createdModel)
  }

  lemma ConflictsSnoc(w: seq<Call>, c: Call)
    requires Conflicts(w) && c.CreateAssetModelCall? && IsConflict(c.createdModel)
    ensures Conflicts(w + [c])
  {
    forall i | 0 <= i < |w + [c]|
      ensures (w + [c])[i].CreateAssetModelCall? && IsConflict((w + [c])[i].createdModel)
    {
      if i < |w| {
        assert (w + [c])[i] == w[i];
      }
    }
  }

  lemma ConflictsFront(w: seq<Call>)
    requires Conflicts(w) && w != []
    ensures Conflicts(w[..|w| - 1]) && w[|w| - 1].CreateAssetModelCall? && IsConflict(w[|w| - 1].createdModel)
  {
    var front := w[..|w| - 1];
    forall i | 0 <= i < |front|
      ensures front[i].CreateAssetModelCall? && IsConflict(front[i].createdModel)
    {
      assert front[i] == w[i];
    }
  }

  /** What the name-retry loop's calls say about its outcome: the last call made it. */
  lemma CreateModelOutcome(w: seq<Call>, r: Result<string, Error>, thingName: string, properties: map<string, string>,
                           catalog: TypeCatalog, uomMap: map<string, seq<string>>)
    requires 0 < |w| && Attempts(w, thingName, properties, catalog, uomMap)
    requires w[|w| - 1].CreateAssetModelCall?
    requires if Exhausted(w) then r == Err(ModelNameExhausted(thingName)) else r == w[|w| - 1].createdModel
    ensures Attempt(w[0], ComposeModelName(thingName, 0), properties, catalog, uomMap)
    ensures r.Ok? ==> r == w[|w| - 1].createdModel
    ensures r.Err? ==> r.error == ModelNameExhausted(thingName) || CallError(w[|w| - 1]) == Some(r.error)
  {
  }

  /** Every entry of `models` is still in `models'`, unchanged. */
  ghost predicate KeepsEntries(models: map<string, string>, models': map<string, string>)
  {
    forall k :: k in models ==> k in models' && models'[k] == models[k]
  }

  lemma KeepsEntriesTrans(a: map<string, string>, b: map<string, string>, c: map<string, string>)
    requires KeepsEntries(a, b) && KeepsEntries(b, c)
    ensures KeepsEntries(a, c)
  {
  }

  /** Every name was tried and taken. */
  predicate Exhausted(w: seq<Call>)
  {
    |w| == MaxNameAttempts && w[|w| - 1].CreateAssetModelCall? && IsConflict(w[|w| - 1].createdModel)
  }

  /** The keys of the things. */
  ghost function ThingKeys(things: seq<Thing>): set<string>
  {
    set i | 0 <= i < |things| :: BuildModelKeyFromThing(things[i])
  }

  lemma ThingKeysStep(things: seq<Thing>, i: nat)
    requires i < |things|
    ensures ThingKeys(things[..i + 1]) == ThingKeys(things[..i]) + {BuildModelKeyFromThing(things[i])}
  {
    var a := things[..i + 1];
    assert a[i] == things[i];
    forall k | k in ThingKeys(a)
      ensures k in ThingKeys(things[..i]) + {BuildModelKeyFromThing(things[i])}
    {
      var j :| 0 <= j < |a| && BuildModelKeyFromThing(a[j]) == k;
      if j < i {
        assert things[..i][j] == a[j];
      }
    }
    forall k | k in ThingKeys(things[..i])
      ensures k in ThingKeys(a)
    {
      var j :| 0 <= j < i && BuildModelKeyFromThing(things[..i][j]) == k;
      assert a[j] == things[..i][j];
    }
  }

  lemma ThingKeysPrefix(things: seq<Thing>, i: nat)
    requires i <= |things|
    ensures ThingKeys(things[..i]) <= ThingKeys(things)
  {
    forall k | k in ThingKeys(things[..i])
      ensures k in ThingKeys(things)
    {
      var j :| 0 <= j < i && BuildModelKeyFromThing(things[..i][j]) == k;
      assert things[..i][j] == things[j];
    }
  }

  /**
   * The calls alignModels makes for one thing, given the keys already
   * indexed `known`: none when its key is one of them; otherwise the creation
   * of a model defining exactly the thing's properties, under the thing's own
   * name first.
   */
  ghost predicate ModelEnsured(thing: Thing, known: set<string>, v: seq<Call>, catalog: TypeCatalog,
                               uomMap: map<string, seq<string>>)
  {
    var key := BuildModelKeyFromThing(thing);
    && (key in known ==> v == [])
    && (key !in known ==>
          && v != [] && v[0].CreateAssetModelCall? && v[0].modelName == ComposeModelName(thing.name, 0)
          && DefinesExactly(v[0].definitions, PropertyTypes(thing.properties), catalog, uomMap))
  }

  /** ModelEnsured holds of each of the first |parts| things, with the keys indexed before it. */
  ghost predicate AllEnsured(models: map<string, string>, things: seq<Thing>, parts: seq<seq<Call>>,
                             catalog: TypeCatalog, uomMap: map<string, seq<string>>)
  {
    && |parts| <= |things|
    && forall i :: 0 <= i < |parts| ==>
         ModelEnsured(things[i], models.Keys + ThingKeys(things[..i]), parts[i], catalog, uomMap)
  }

  /** Ensuring the model of one more thing extends AllEnsured. */
  lemma AllEnsuredSnoc(models: map<string, string>, things: seq<Thing>, parts: seq<seq<Call>>, v: seq<Call>,
                       catalog: TypeCatalog, uomMap: map<string, seq<string>>)
    requires AllEnsured(models, things, parts, catalog, uomMap) && |parts| < |things|
    requires ModelEnsured(things[|parts|], models.Keys + ThingKeys(things[..|parts|]), v, catalog, uomMap)
    ensures AllEnsured(models, things, parts + [v], catalog, uomMap)
  {
    forall i | 0 <= i < |parts| + 1
      ensures ModelEnsured(things[i], models.Keys + ThingKeys(things[..i]), (parts + [v])[i], catalog, uomMap)
    {
      if i < |parts| {
        assert (parts + [v])[i] == parts[i];
      }
    }
  }

  /** The model `id` was created, successfully, among the calls made for a thing with the key `key`. */
  ghost predicate CreatedFor(things: seq<Thing>, parts: seq<seq<Call>>, key: string, id: string)
  {
    exists i, j :: 0 <= i < |parts| && i < |things| && 0 <= j < |parts[i]|
      && BuildModelKeyFromThing(things[i]) == key
      && parts[i][j].CreateAssetModelCall? && parts[i][j].createdModel == Ok(id)
  }

  /** Every entry of `models'` that `models` lacks holds a model created for its key. */
  ghost predicate NewEntriesCreated(models: map<string, string>, models': map<string, string>,
                                    things: seq<Thing>, parts: seq<seq<Call>>)
  {
    forall k :: k in models' && k !in models ==> CreatedFor(things, parts, k, models'[k])
  }

  /** One more thing, whose new entry, if any, was created among its calls `v`. */
  lemma NewEntriesCreatedSnoc(models: map<string, string>, before: map<string, string>, after: map<string, string>,
                              things: seq<Thing>, parts: seq<seq<Call>>, v: seq<Call>)
    requires NewEntriesCreated(models, before, things, parts)
    requires |parts| < |things|
    requires KeepsEntries(before, after)
    requires after.Keys <= before.Keys + {BuildModelKeyFromThing(things[|parts|])}
    requires var key := BuildModelKeyFromThing(things[|parts|]);
      key in after && key !in before ==>
        exists j :: 0 <= j < |v| && v[j].CreateAssetModelCall? && v[j].createdModel == Ok(after[key])
    ensures NewEntriesCreated(models, after, things, parts + [v])
  {
    var parts' := parts + [v];
    var key := BuildModelKeyFromThing(things[|parts|]);
    forall k | k in after && k !in models
      ensures CreatedFor(things, parts', k, after[k])
    {
      if k in before {
        var i, j :| 0 <= i < |parts| && i < |things| && 0 <= j < |parts[i]|
          && BuildModelKeyFromThing(things[i]) == k
          && parts[i][j].CreateAssetModelCall? && parts[i][j].createdModel == Ok(before[k]);
        assert parts'[i] == parts[i];
      } else {
        var j :| 0 <= j < |v| && v[j].CreateAssetModelCall? && v[j].createdModel == Ok(after[key]);
        assert parts'[|parts|][j] == v[j];
      }
    }
  }

  /** The calls of one step of alignModels, from what EnsureModel promises for things[i]. */
  lemma EnsuredCalls(things: seq<Thing>, i: nat, models: map<string, string>, current: map<string, string>,
                     models': map<string, string>, err: Option<Error>, parts: seq<seq<Call>>, v: seq<Call>,
                     catalog: TypeCatalog, uomMap: map<string, seq<string>>)
    requires i == |parts| < |things|
    requires AllEnsured(models, things, parts, catalog, uomMap)
    requires NewEntriesCreated(models, current, things, parts)
    requires current.Keys == models.Keys + ThingKeys(things[..i])
    requires ModelEnsured(things[i], current.Keys, v, catalog, uomMap)
    requires err.None? ==>
      && models'.Keys == current.Keys + {BuildModelKeyFromThing(things[i])}
      && KeepsEntries(current, models')
    requires err.None? && BuildModelKeyFromThing(things[i]) !in current ==>
      exists j :: 0 <= j < |v| && v[j].CreateAssetModelCall? && v[j].createdModel == Ok(models'[BuildModelKeyFromThing(things[i])])
    requires err.Some? ==> models' == current
    ensures AllEnsured(models, things, parts + [v], catalog, uomMap)
    ensures NewEntriesCreated(models, models', things, parts + [v])
  {
    AllEnsuredSnoc(models, things, parts, v, catalog, uomMap);
    if err.None? {
      NewEntriesCreatedSnoc(models, current, models', things, parts, v);
    } else {
      NewEntriesCreatedSnoc(models, current, current, things, parts, v);
    }
  }

  /** The keys after one step of alignModels, from what EnsureModel promises for things[i]. */
  lemma EnsuredKeys(things: seq<Thing>, i: nat, models: map<string, string>, current: map<string, string>,
                    models': map<string, string>, err: Option<Error>)
    requires i < |things|
    requires KeepsEntries(models, current)
    requires current.Keys == models.Keys + ThingKeys(things[..i])
    requires err.None? ==>
      && models'.Keys == current.Keys + {BuildModelKeyFromThing(things[i])}
      && KeepsEntries(current, models')
    requires err.Some? ==> models' == current
    ensures KeepsEntries(models, models')
    ensures err.None? ==> models'.Keys == models.Keys + ThingKeys(things[..i + 1])
    ensures err.Some? ==> models'.Keys <= models.Keys + ThingKeys(things)
  {
    if err.None? {
      ThingKeysStep(things, i);
      KeepsEntriesTrans(models, current, models');
    } else {
      ThingKeysPrefix(things, i);
    }
  }

  /**
   * alignModels creates at most one model per key: a thing whose key an
   * earlier thing already had makes no call.
   */
  lemma OneCreationPerKey(models: map<string, string>, things: seq<Thing>, parts: seq<seq<Call>>,
                          catalog: TypeCatalog, uomMap: map<string, seq<string>>, i: nat, j: nat)
    requires AllEnsured(models, things, parts, catalog, uomMap)
    requires i < j < |parts|
    requires BuildModelKeyFromThing(things[i]) == BuildModelKeyFromThing(things[j])
    ensures parts[j] == []
  {
    assert things[..j][i] == things[i];
    assert BuildModelKeyFromThing(things[i]) in ThingKeys(things[..j]);
  }

  /** At most AssetPollRetries describes of the asset `assetId`: the wait for it to become active. */
  ghost predicate AssetPolls(u: seq<Call>, assetId: string)
  {
    && |u| <= AssetPollRetries
    && forall k :: 0 <= k < |u| ==> u[k].DescribeAssetCall? && u[k].assetId == assetId
  }

  /**
   * The calls of UpdateAssetProperties on asset `assetId`: a describe of the
   * asset, whose failure ends them, then the writes of the wanted aliases
   * still pending on the described properties, each to its property,
   * stopping at the first failed write.
   */
  ghost predicate AliasesUpdated(v: seq<Call>, assetId: string, aliases: map<string, string>, err: Option<Error>)
  {
    && v != [] && v[0].DescribeAssetCall? && v[0].assetId == assetId
    && (v[0].asset.Err? ==> |v| == 1 && err == Some(v[0].asset.error))
    && (v[0].asset.Ok? ==>
          exists written :: AliasWrites(v[1..], assetId, PropertiesByName(v[0].asset.value.properties), aliases, written, err))
  }

  /**
   * What alignAssets does for one thing, as seen in its calls `v`: nothing
   * when no model has the thing's key; otherwise it reuses the thing's
   * existing asset, or creates one under the model with the thing id as
   * external id (a failed creation ending it) and waits for it to become
   * active; then it binds every property of the thing to its alias
   * `/thingId/name` on that asset.
   */
  ghost predicate AssetAligned(thing: Thing, models: map<string, string>, assets: map<string, AssetDefinition>,
                               v: seq<Call>, err: Option<Error>)
  {
    var key := BuildModelKeyFromThing(thing);
    var aliases := AliasesFor(thing.id, PropertyTypes(thing.properties));
    && (key !in models ==> v == [] && err.None?)
    && (key in models && thing.id in assets ==> AliasesUpdated(v, assets[thing.id].assetId, aliases, err))
    && (key in models && thing.id !in assets ==>
          && v != [] && v[0].CreateAssetCall?
          && v[0].assetName == thing.name && v[0].assetModelId == models[key] && v[0].externalId == thing.id
          && (v[0].createdAsset.Err? ==> |v| == 1 && err == Some(v[0].createdAsset.error))
          && (v[0].createdAsset.Ok? ==>
                exists k :: 1 <= k < |v| && AssetPolls(v[1..k], v[0].createdAsset.value)
                  && AliasesUpdated(v[k..], v[0].createdAsset.value, aliases, err)))
    && (err.Some? ==> v != [] && CallError(v[|v| - 1]) == err)
  }

  /** A created asset, the wait for it and the alias update on it align the thing. */
  lemma AssetAlignedCreated(thing: Thing, models: map<string, string>, assets: map<string, AssetDefinition>,
                            v1: seq<Call>, v2: seq<Call>, err: Option<Error>)
    requires BuildModelKeyFromThing(thing) in models && thing.id !in assets
    requires v1 != [] && v1[0].CreateAssetCall? && v1[0].createdAsset.Ok?
    requires v1[0].assetName == thing.name && v1[0].assetModelId == models[BuildModelKeyFromThing(thing)]
    requires v1[0].externalId == thing.id
    requires AssetPolls(v1[1..], v1[0].createdAsset.value)
    requires AliasesUpdated(v2, v1[0].createdAsset.value, AliasesFor(thing.id, PropertyTypes(thing.properties)), err)
    requires err.Some? ==> CallError(v2[|v2| - 1]) == err
    ensures AssetAligned(thing, models, assets, v1 + v2, err)
  {
    var v := v1 + v2;
    assert v[1..|v1|] == v1[1..] && v[|v1|..] == v2;
    if err.Some? {
      assert v[|v| - 1] == v2[|v2| - 1];
    }
  }

  /** AssetAligned holds of every thing, with its calls and its outcome. */
  ghost predicate AllAligned(things: seq<Thing>, models: map<string, string>, assets: map<string, AssetDefinition>,
                             parts: seq<seq<Call>>, outcomes: seq<Option<Error>>)
  {
    && |outcomes| == |parts| == |things|
    && forall i :: 0 <= i < |things| ==> AssetAligned(things[i], models, assets, parts[i], outcomes[i])
  }

  /** Aligning one more thing extends AllAligned. */
  lemma AllAlignedSnoc(things: seq<Thing>, models: map<string, string>, assets: map<string, AssetDefinition>,
                       parts: seq<seq<Call>>, outcomes: seq<Option<Error>>, v: seq<Call>, err: Option<Error>)
    requires |things| > 0
    requires AllAligned(things[..|things| - 1], models, assets, parts, outcomes)
    requires AssetAligned(things[|things| - 1], models, assets, v, err)
    ensures AllAligned(things, models, assets, parts + [v], outcomes + [err])
  {
    var n := |things| - 1;
    forall i | 0 <= i < |things|
      ensures AssetAligned(things[i], models, assets, (parts + [v])[i], (outcomes + [err])[i])
    {
      if i < n {
        assert things[..n][i] == things[i];
      }
    }
  }

  /** The errors among the outcomes, in order. */
  function ErrorsOf(outcomes: seq<Option<Error>>): (errs: seq<Error>)
    ensures |errs| <= |outcomes|
    ensures errs == [] <==> forall i :: 0 <= i < |outcomes| ==> outcomes[i].None?
  {
    if outcomes == [] then []
    else
      var front := ErrorsOf(outcomes[..|outcomes| - 1]);
      var last := outcomes[|outcomes| - 1];
      assert forall i :: 0 <= i < |outcomes| - 1 ==> outcomes[..|outcomes| - 1][i] == outcomes[i];
      if last.Some? then front + [last.value] else front
  }

  class Aligner {
    const client: Client

    constructor (client: Client)
      ensures this.client == client
    {
      this.client := client;
    }

    /** Describes one listed model and records it in the definitions and, under its key, in the models map. */
    method DescribeNext(id: string, models: map<string, string>, definitions: map<string, AssetModel>,
                        ghost described: seq<(string, AssetModel)>)
      returns (models': map<string, string>, definitions': map<string, AssetModel>,
               ghost described': seq<(string, AssetModel)>, r: Result<AssetModel, Error>)
      requires Indexed(models, definitions, described)
      modifies client.svc
      ensures client.svc.log == old(client.svc.log) + [DescribeAssetModelCall(id, r)]
      ensures described' == described + DescribedModels([DescribeAssetModelCall(id, r)])
      ensures r.Ok? ==> Indexed(models', definitions', described')
    {
      r := client.svc.DescribeAssetModel(id);
      DescribedModelsOne(DescribeAssetModelCall(id, r));
      if r.Err? {
        return models, definitions, described, r;
      }
      LastWinsSnoc(described, (id, r.value));
      definitions' := definitions[id := r.value];
      models' := IndexModel(models, id, r.value, described);
      described' := described + [(id, r.value)];
    }

    /** Describes every model of one listed page, in order, stopping at the first error. */
    method DescribePage(items: seq<ModelSummary>, models: map<string, string>, definitions: map<string, AssetModel>,
                        ghost described: seq<(string, AssetModel)>)
      returns (models': map<string, string>, definitions': map<string, AssetModel>,
               ghost described': seq<(string, AssetModel)>, err: Option<Error>, ghost w: seq<Call>)
      requires Indexed(models, definitions, described)
      modifies client.svc
      ensures client.svc.log == old(client.svc.log) + w
      ensures described' == described + DescribedModels(w)
      ensures err.None? ==> Ids(DescribedModels(w)) == SummaryIds(items) && Indexed(models', definitions', described')
      ensures err.Some? ==> w != [] && CallError(w[|w| - 1]) == err
    {
      models', definitions', described', w := models, definitions, described, [];
      for j := 0 to |items|
        invariant client.svc.log == old(client.svc.log) + w
        invariant described' == described + DescribedModels(w)
        invariant Ids(DescribedModels(w)) == SummaryIds(items[..j])
        invariant Indexed(models', definitions', described')
      {
        var r;
        models', definitions', described', r := DescribeNext(items[j].id, models', definitions', described');
        ghost var c := DescribeAssetModelCall(items[j].id, r);
        DescribeStep(described, w, c, items, j);
        AppendAssoc(old(client.svc.log), w, [c]);
        w := w + [c];
        if r.Err? {
          return models', definitions', described', Some(r.error), w;
        }
      }
      assert items[..|items|] == items;
      err := None;
    }

    /**
     * Lists the models page by page, following the continuation token until
     * there is none, and describes each listed model: every description is
     * kept by id, and every model with a key is indexed under its key.
     */
    method GetSiteWiseModels() returns (models: map<string, string>, definitions: map<string, AssetModel>,
                                        err: Option<Error>, ghost w: seq<Call>)
      modifies client.svc
      ensures client.svc.log == old(client.svc.log) + w
      ensures err.None? ==>
        && Ids(DescribedModels(w)) == SummaryIds(Flatten(client.svc.modelPages))
        && Indexed(models, definitions, DescribedModels(w))
      ensures err.Some? ==> w != [] && CallError(w[|w| - 1]) == err
    {
      ghost var pages := client.svc.modelPages;
      models, definitions, w := map[], map[], [];
      var token: Option<nat> := None;
      var next := true;
      while next
        invariant client.svc.log == old(client.svc.log) + w
        invariant PageIndex(token) <= |pages|
        invariant Indexed(models, definitions, DescribedModels(w))
        invariant next ==> Ids(DescribedModels(w)) == SummaryIds(Flatten(pages[..PageIndex(token)]))
        invariant !next ==> Ids(DescribedModels(w)) == SummaryIds(Flatten(pages))
        decreases (if next then 1 else 0) + |pages| - PageIndex(token)
      {
        var listed := client.svc.ListAssetModels(token);
        ghost var c := ListAssetModelsCall(token, listed);
        if listed.Err? {
          return models, definitions, Some(listed.error), w + [c];
        }
        var page := listed.value;
        ghost var described, v;
        models, definitions, described, err, v := DescribePage(page.items, models, definitions, DescribedModels(w));
        if err.Some? {
          AppendAssoc(old(client.svc.log), w + [c], v);
          AppendAssoc(old(client.svc.log), w, [c]);
          return models, definitions, err, w + [c] + v;
        }
        DescribedModelsSkip(w, c, v);
        IdsAppend(DescribedModels(w), DescribedModels(v));
        ModelPageStep(pages, token);
        AppendAssoc(old(client.svc.log), w + [c], v);
        AppendAssoc(old(client.svc.log), w, [c]);
        w := w + [c] + v;
        if page.next.None? {
          next := false;
        } else {
          token := page.next;
        }
      }
      err := None;
    }

    /** Lists the assets of one model page by page and indexes those with an external id under it. */
    method ListModelAssets(modelId: string, assets: map<string, AssetDefinition>, ghost before: seq<(string, AssetDefinition)>)
      returns (assets': map<string, AssetDefinition>, err: Option<Error>, ghost w: seq<Call>)
      requires assets == LastWins(before)
      modifies client.svc
      ensures client.svc.log == old(client.svc.log) + w
      ensures err.None? ==> assets' == LastWins(before + IndexedAssets(modelId, Flatten(client.svc.assetPages(modelId))))
      ensures err.Some? ==> w != [] && CallError(w[|w| - 1]) == err
    {
      ghost var pages := client.svc.assetPages(modelId);
      assets', w := assets, [];
      var token: Option<nat> := None;
      var next := true;
      assert before + IndexedAssets(modelId, Flatten(pages[..0])) == before;
      while next
        invariant client.svc.log == old(client.svc.log) + w
        invariant PageIndex(token) <= |pages|
        invariant next ==> assets' == LastWins(before + IndexedAssets(modelId, Flatten(pages[..PageIndex(token)])))
        invariant !next ==> assets' == LastWins(before + IndexedAssets(modelId, Flatten(pages)))
        decreases (if next then 1 else 0) + |pages| - PageIndex(token)
      {
        var listed := client.svc.ListAssets(modelId, token);
        ghost var c := ListAssetsCall(modelId, token, listed);
        AppendAssoc(old(client.svc.log), w, [c]);
        if listed.Err? {
          return assets', Some(listed.error), w + [c];
        }
        var page := listed.value;
        ghost var done := IndexedAssets(modelId, Flatten(pages[..PageIndex(token)]));
        assets' := AddAssets(assets', modelId, page.items, before + done);
        AssetPageStep(modelId, pages, token);
        AppendAssoc(before, done, IndexedAssets(modelId, page.items));
        w := w + [c];
        if page.next.None? {
          next := false;
        } else {
          token := page.next;
        }
      }
      err := None;
    }

    /**
     * Lists the assets of every discovered model, one model after the other
     * in the map's iteration order, and indexes those with an external id
     * under it; the first failed listing ends discovery.
     */
    method GetSiteWiseAssets(models: map<string, string>)
      returns (assets: map<string, AssetDefinition>, err: Option<Error>, ghost order: seq<string>, ghost w: seq<Call>)
      modifies client.svc
      ensures client.svc.log == old(client.svc.log) + w
      ensures err.None? ==>
        && |order| == |models|
        && (forall m :: m in order <==> m in models.Values)
        && assets == LastWins(AssetsOfModels(client.svc.assetPages, order))
      ensures err.Some? ==> w != [] && CallError(w[|w| - 1]) == err
    {
      ghost var pages := client.svc.assetPages;
      var remaining := models.Keys;
      assets, order, w := map[], [], [];
      while remaining != {}
        invariant remaining <= models.Keys
        invariant client.svc.log == old(client.svc.log) + w
        invariant |order| + |remaining| == |models|
        invariant forall m :: m in order ==> m in models.Values
        invariant forall k :: k in models && k !in remaining ==> models[k] in order
        invariant assets == LastWins(AssetsOfModels(pages, order))
        decreases |remaining|
      {
        var k :| k in remaining;
        ghost var v;
        assets, err, v := ListModelAssets(models[k], assets, AssetsOfModels(pages, order));
        AppendAssoc(old(client.svc.log), w, v);
        if err.Some? {
          assert (w + v)[|w + v| - 1] == v[|v| - 1];
          return assets, err, order, w + v;
        }
        AssetsOfModelsSnoc(pages, order, models[k]);
        order := order + [models[k]];
        remaining := remaining - {k};
        w := w + v;
      }
      forall m | m in models.Values
        ensures m in order
      {
        var k :| k in models && models[k] == m;
      }
      err := None;
    }

    /** Updates an adopted model with the thing's properties, then waits for the model to become active. */
    method UpdateModel(model: AssetModel, thing: Thing, uomMap: map<string, seq<string>>)
      returns (err: Option<Error>, ghost v: seq<Call>)
      modifies client.svc
      ensures client.svc.log == old(client.svc.log) + v
      ensures ModelUpdated(v, model, PropertyTypes(thing.properties), client.catalog, uomMap, err)
      ensures err.Some? ==> v != [] && CallError(v[|v| - 1]) == err
    {
      ghost var start := client.svc.log;
      var types := ThingPropertiesMap(thing);
      err := client.UpdateAssetModelProperties(model, types, uomMap);
      Extends(start, client.svc.log);
      ghost var v1 := client.svc.log[|start|..];
      if err.Some? {
        return err, v1;
      }
      ghost var u := AwaitModel(model.id);
      AppendAssoc(start, v1, u);
      v := v1 + u;
      assert ModelPolls(u, model.id);
      if v1 != [] {
        assert v[1..] == u;
      }
    }

    /** alignAlreadyCreatedModels, for one asset: update its model when the decision asks for it. */
    method ReconcileAsset(asset: AssetDefinition, things: map<string, Thing>, definitions: map<string, AssetModel>,
                          uomMap: map<string, seq<string>>)
      returns (err: Option<Error>, ghost v: seq<Call>)
      modifies client.svc
      ensures client.svc.log == old(client.svc.log) + v
      ensures Reconciled(v, asset, things, definitions, client.catalog, uomMap, err)
      ensures err.Some? ==> v != [] && CallError(v[|v| - 1]) == err
    {
      var d := Reconcile(asset, things, definitions);
      if d.Adopt? && d.update {
        err, v := UpdateModel(d.model, things[asset.thingId], uomMap);
      } else {
        err, v := None, [];
      }
    }

    /**
     * alignAlreadyCreatedModels: for every discovered asset, in map order,
     * index its model under its thing's key when the keys differ, first
     * updating the model when the thing is not contained in it; the first
     * failed update ends the pass. The assets are visited in the order
     * `order`, the calls of each being its part of `parts`.
     */
    method AlignAlreadyCreatedModels(things: map<string, Thing>, models: map<string, string>,
                                     definitions: map<string, AssetModel>, assets: map<string, AssetDefinition>,
                                     uomMap: map<string, seq<string>>)
      returns (models': map<string, string>, errs: seq<Error>,
               ghost order: seq<string>, ghost parts: seq<seq<Call>>, ghost w: seq<Call>)
      modifies client.svc
      ensures client.svc.log == old(client.svc.log) + w
      ensures w == Flatten(parts)
      ensures |errs| <= 1
      ensures Visited(assets, things, definitions, client.catalog, uomMap, order, parts, if errs == [] then None else Some(errs[0]))
      ensures errs == [] ==> forall t :: t in assets ==> t in order
      ensures models' == Adoptions(models, assets, things, definitions, if errs == [] then order else order[..|order| - 1])
      ensures errs != [] ==> w != [] && CallError(w[|w| - 1]) == Some(errs[0])
      ensures models.Keys <= models'.Keys
      ensures forall k :: k in models' ==>
        (k in models && models'[k] == models[k]) || AdoptedBy(assets, things, definitions, k, models'[k])
      ensures errs == [] ==> forall t :: t in assets && Reconcile(assets[t], things, definitions).Adopt? ==>
        Reconcile(assets[t], things, definitions).thingKey in models'
    {
      var err;
      models', err, order, parts, w := VisitAssets(things, models, definitions, assets, uomMap);
      ghost var adopted := if err.None? then order else order[..|order| - 1];
      AdoptionsFrom(models, assets, things, definitions, adopted);
      errs := if err.None? then [] else [err.value];
      if err.None? {
        AdoptionsCover(models, assets, things, definitions, order);
      }
    }

    /** The loop of alignAlreadyCreatedModels over the discovered assets. */
    method VisitAssets(things: map<string, Thing>, models: map<string, string>,
                       definitions: map<string, AssetModel>, assets: map<string, AssetDefinition>,
                       uomMap: map<string, seq<string>>)
      returns (models': map<string, string>, err: Option<Error>,
               ghost order: seq<string>, ghost parts: seq<seq<Call>>, ghost w: seq<Call>)
      modifies client.svc
      ensures client.svc.log == old(client.svc.log) + w
      ensures w == Flatten(parts)
      ensures Visited(assets, things, definitions, client.catalog, uomMap, order, parts, err)
      ensures err.None? ==> forall t :: t in assets ==> t in order
      ensures models' == Adoptions(models, assets, things, definitions, if err.None? then order else order[..|order| - 1])
      ensures err.Some? ==> w != [] && CallError(w[|w| - 1]) == err
    {
      models', err, order, parts, w := models, None, [], [], [];
      var remaining := assets.Keys;
      while remaining != {}
        invariant client.svc.log == old(client.svc.log) + w
        invariant w == Flatten(parts)
        invariant err.None?
        invariant Visited(assets, things, definitions, client.catalog, uomMap, order, parts, None)
        invariant Unvisited(assets.Keys, remaining, order)
        invariant models' == Adoptions(models, assets, things, definitions, order)
        decreases remaining
      {
        var t :| t in remaining;
        ghost var v;
        var adopted;
        adopted, err, v := VisitAsset(t, things, models, models', definitions, assets, uomMap, remaining, order, parts);
        AppendAssoc(old(client.svc.log), w, v);
        FlattenSnoc(parts, v);
        remaining := remaining - {t};
        if err.Some? {
          assert (w + v)[|w + v| - 1] == v[|v| - 1];
          assert (order + [t])[..|order|] == order;
          return models', err, order + [t], parts + [v], w + v;
        }
        models', w, order, parts := adopted, w + v, order + [t], parts + [v];
      }
    }

    /**
     * One step of alignAlreadyCreatedModels: update the model of the asset
     * `t` when its decision asks for it, then index the adopted model, unless
     * the update failed.
     */
    method VisitAsset(t: string, things: map<string, Thing>, ghost models: map<string, string>, models': map<string, string>,
                      definitions: map<string, AssetModel>, assets: map<string, AssetDefinition>,
                      uomMap: map<string, seq<string>>, ghost remaining: set<string>, ghost order: seq<string>,
                      ghost parts: seq<seq<Call>>)
      returns (adopted: map<string, string>, err: Option<Error>, ghost v: seq<Call>)
      requires Visited(assets, things, definitions, client.catalog, uomMap, order, parts, None)
      requires Unvisited(assets.Keys, remaining, order) && t in remaining
      requires models' == Adoptions(models, assets, things, definitions, order)
      modifies client.svc
      ensures client.svc.log == old(client.svc.log) + v
      ensures Visited(assets, things, definitions, client.catalog, uomMap, order + [t], parts + [v], err)
      ensures Unvisited(assets.Keys, remaining - {t}, order + [t])
      ensures err.None? ==> adopted == Adoptions(models, assets, things, definitions, order + [t])
      ensures err.Some? ==> v != [] && CallError(v[|v| - 1]) == err
    {
      UnvisitedStep(assets.Keys, remaining, order, t);
      var d := Reconcile(assets[t], things, definitions);
      err, v := ReconcileAsset(assets[t], things, definitions, uomMap);
      VisitedSnoc(assets, things, definitions, client.catalog, uomMap, order, parts, t, v, err);
      AdoptionsSnoc(models, assets, things, definitions, order, t);
      adopted := if d.Adopt? then models'[d.thingKey := d.model.id] else models';
    }

    /**
     * Waits for a model to become active, describing it at most
     * ModelPollRetries times; alignment goes on whatever the outcome.
     */
    method AwaitModel(modelId: string) returns (ghost u: seq<Call>)
      modifies client.svc
      ensures client.svc.log == old(client.svc.log) + u
      ensures |u| <= ModelPollRetries
      ensures forall k :: 0 <= k < |u| ==> u[k].DescribeAssetModelCall? && u[k].describedId == modelId
    {
      ghost var before := client.svc.log;
      var active := client.PollForModelActiveStatus(modelId, ModelPollRetries);
      Extends(before, client.svc.log);
      u := client.svc.log[|before|..];
      forall k | 0 <= k < |u|
        ensures u[k].DescribeAssetModelCall? && u[k].describedId == modelId
      {
        assert u[k] == client.svc.log[|before| + k];
      }
    }

    /**
     * Waits for an asset to become active, describing it at most
     * AssetPollRetries times; alignment goes on whatever the outcome.
     */
    method AwaitAsset(assetId: string) returns (ghost u: seq<Call>)
      modifies client.svc
      ensures client.svc.log == old(client.svc.log) + u
      ensures |u| <= AssetPollRetries
      ensures forall k :: 0 <= k < |u| ==> u[k].DescribeAssetCall? && u[k].assetId == assetId
    {
      ghost var before := client.svc.log;
      var active := client.PollForAssetActiveStatus(assetId, AssetPollRetries);
      Extends(before, client.svc.log);
      u := client.svc.log[|before|..];
      forall k | 0 <= k < |u|
        ensures u[k].DescribeAssetCall? && u[k].assetId == assetId
      {
        assert u[k] == client.svc.log[|before| + k];
      }
    }

    /**
     * The name-retry loop of alignModels: create the model under the names
     * for increments 0, 1, ... in turn while the name is taken, at most
     * MaxNameAttempts times; any other error ends it.
     */
    method CreateModel(thingName: string, properties: map<string, string>, uomMap: map<string, seq<string>>)
      returns (r: Result<string, Error>, ghost w: seq<Call>)
      modifies client.svc
      ensures client.svc.log == old(client.svc.log) + w
      ensures 0 < |w| <= MaxNameAttempts
      ensures Attempts(w, thingName, properties, client.catalog, uomMap)
      ensures Conflicts(w[..|w| - 1]) && w[|w| - 1].CreateAssetModelCall?
      ensures |w| < MaxNameAttempts ==> !IsConflict(w[|w| - 1].createdModel)
      ensures if Exhausted(w) then r == Err(ModelNameExhausted(thingName)) else r == w[|w| - 1].createdModel
    {
      w := [];
      var i := 0;
      while i < MaxNameAttempts
        invariant i == |w| <= MaxNameAttempts
        invariant client.svc.log == old(client.svc.log) + w
        invariant Attempts(w, thingName, properties, client.catalog, uomMap)
        invariant Conflicts(w)
      {
        ghost var before := client.svc.log;
        r := client.CreateAssetModel(ComposeModelName(thingName, i), properties, uomMap);
        ghost var c := client.svc.log[|before|];
        Extends(before, client.svc.log);
        assert client.svc.log[|before|..] == [c];
        AppendAssoc(old(client.svc.log), w, [c]);
        AttemptsSnoc(w, c, thingName, properties, client.catalog, uomMap);
        if !IsConflict(r) {
          assert (w + [c])[..|w|] == w;
          w := w + [c];
          return;
        }
        ConflictsSnoc(w, c);
        w := w + [c];
        i := i + 1;
      }
      ConflictsFront(w);
      r := Err(ModelNameExhausted(thingName));
    }

    /**
     * The creation of a missing model in alignModels: the name-retry loop,
     * then a wait for the created model to become active.
     */
    method CreateActiveModel(thingName: string, properties: map<string, string>, uomMap: map<string, seq<string>>)
      returns (r: Result<string, Error>, ghost v: seq<Call>)
      modifies client.svc
      ensures client.svc.log == old(client.svc.log) + v
      ensures v != [] && Attempt(v[0], ComposeModelName(thingName, 0), properties, client.catalog, uomMap)
      ensures r.Ok? ==> exists i :: 0 <= i < |v| && v[i].CreateAssetModelCall? && v[i].createdModel == r
      ensures r.Err? ==> r.error == ModelNameExhausted(thingName) || CallError(v[|v| - 1]) == Some(r.error)
    {
      ghost var w1;
      r, w1 := CreateModel(thingName, properties, uomMap);
      CreateModelOutcome(w1, r, thingName, properties, client.catalog, uomMap);
      if r.Err? {
        return r, w1;
      }
      ghost var last := w1[|w1| - 1];
      ghost var u := AwaitModel(r.value);
      AppendAssoc(old(client.svc.log), w1, u);
      v := w1 + u;
      assert v[0] == w1[0] && v[|w1| - 1] == last;
    }

    /**
     * alignModels, for one thing: create a model for the thing's key unless
     * one is indexed under it, wait for it to become active and index it.
     */
    method EnsureModel(thing: Thing, models: map<string, string>, uomMap: map<string, seq<string>>)
      returns (models': map<string, string>, err: Option<Error>, ghost v: seq<Call>)
      modifies client.svc
      ensures client.svc.log == old(client.svc.log) + v
      ensures BuildModelKeyFromThing(thing) in models ==> models' == models && err.None?
      ensures ModelEnsured(thing, models.Keys, v, client.catalog, uomMap)
      ensures err.None? ==>
        && models'.Keys == models.Keys + {BuildModelKeyFromThing(thing)}
        && KeepsEntries(models, models')
      ensures err.None? && BuildModelKeyFromThing(thing) !in models ==>
        exists i :: 0 <= i < |v| && v[i].CreateAssetModelCall? && v[i].createdModel == Ok(models'[BuildModelKeyFromThing(thing)])
      ensures err.Some? ==>
        models' == models && (err.value == ModelNameExhausted(thing.name) || (v != [] && CallError(v[|v| - 1]) == err))
    {
      var types := ThingPropertiesMap(thing);
      var key := BuildModelKeyFromMap(types);
      if key in models {
        return models, None, [];
      }
      var r;
      r, v := CreateActiveModel(thing.name, types, uomMap);
      if r.Err? {
        return models, Some(r.error), v;
      }
      models', err := models[key := r.value], None;
    }

    /**
     * alignModels: make sure every thing's key has a model, one thing after
     * the other; the first failed creation ends the pass. The calls made for
     * each thing visited are its part of `parts`.
     */
    method AlignModels(things: seq<Thing>, models: map<string, string>, uomMap: map<string, seq<string>>)
      returns (models': map<string, string>, errs: seq<Error>, ghost parts: seq<seq<Call>>, ghost w: seq<Call>)
      modifies client.svc
      ensures client.svc.log == old(client.svc.log) + w
      ensures w == Flatten(parts)
      ensures (errs == [] ==> |parts| == |things|) && (errs != [] ==> parts != [])
      ensures AllEnsured(models, things, parts, client.catalog, uomMap)
      ensures NewEntriesCreated(models, models', things, parts)
      ensures |errs| <= 1
      ensures KeepsEntries(models, models')
      ensures models'.Keys <= models.Keys + ThingKeys(things)
      ensures errs == [] ==> models'.Keys == models.Keys + ThingKeys(things)
      ensures errs != [] ==>
        errs[0].ModelNameExhausted? || (w != [] && CallError(w[|w| - 1]) == Some(errs[0]))
    {
      models', errs, parts, w := models, [], [], [];
      for i := 0 to |things|
        invariant client.svc.log == old(client.svc.log) + w
        invariant w == Flatten(parts) && |parts| == i
        invariant AllEnsured(models, things, parts, client.catalog, uomMap)
        invariant NewEntriesCreated(models, models', things, parts)
        invariant KeepsEntries(models, models')
        invariant models'.Keys == models.Keys + ThingKeys(things[..i])
      {
        var err;
        ghost var v;
        models', err, v := EnsureNext(things, i, models, models', uomMap, parts);
        AppendAssoc(old(client.svc.log), w, v);
        FlattenSnoc(parts, v);
        if err.Some? {
          if !err.value.ModelNameExhausted? {
            assert (w + v)[|w + v| - 1] == v[|v| - 1];
          }
          return models', [err.value], parts + [v], w + v;
        }
        w, parts := w + v, parts + [v];
      }
      assert things[..|things|] == things;
    }

    /** One step of alignModels: ensure the model of the next thing, things[i], the first i having made the calls `parts`. */
    method EnsureNext(things: seq<Thing>, i: nat, ghost models: map<string, string>, current: map<string, string>,
                      uomMap: map<string, seq<string>>, ghost parts: seq<seq<Call>>)
      returns (models': map<string, string>, err: Option<Error>, ghost v: seq<Call>)
      requires i == |parts| < |things|
      requires AllEnsured(models, things, parts, client.catalog, uomMap)
      requires NewEntriesCreated(models, current, things, parts)
      requires KeepsEntries(models, current)
      requires current.Keys == models.Keys + ThingKeys(things[..i])
      modifies client.svc
      ensures client.svc.log == old(client.svc.log) + v
      ensures AllEnsured(models, things, parts + [v], client.catalog, uomMap)
      ensures NewEntriesCreated(models, models', things, parts + [v])
      ensures KeepsEntries(models, models')
      ensures err.None? ==> models'.Keys == models.Keys + ThingKeys(things[..i + 1])
      ensures err.Some? ==> models' == current && models'.Keys <= models.Keys + ThingKeys(things)
      ensures err.Some? ==>
        err.value.ModelNameExhausted? || (v != [] && CallError(v[|v| - 1]) == err)
    {
      models', err, v := EnsureModel(things[i], current, uomMap);
      EnsuredCalls(things, i, models, current, models', err, parts, v, client.catalog, uomMap);
      EnsuredKeys(things, i, models, current, models', err);
    }

    /**
     * alignAssets, for one thing with a model: reuse its discovered asset or
     * create one and wait for it to become active, then write the aliases of
     * the thing's properties onto it.
     */
    method AlignAsset(thing: Thing, models: map<string, string>, assets: map<string, AssetDefinition>)
      returns (err: Option<Error>, ghost v: seq<Call>)
      modifies client.svc
      ensures client.svc.log == old(client.svc.log) + v
      ensures AssetAligned(thing, models, assets, v, err)
    {
      var aliases, types := PropertyMaps(thing);
      var key := BuildModelKeyFromMap(types);
      if key !in models {
        return None, [];
      }
      if thing.id in assets {
        err, v := WriteAliases(assets[thing.id].assetId, aliases);
        return;
      }
      var created := client.svc.CreateAsset(thing.name, models[key], thing.id);
      ghost var c := CreateAssetCall(thing.name, models[key], thing.id, created);
      if created.Err? {
        return Some(created.error), [c];
      }
      var assetId := created.value;
      ghost var u := AwaitAsset(assetId);
      ghost var v2;
      err, v2 := WriteAliases(assetId, aliases);
      AppendAssoc(old(client.svc.log), [c], u);
      AppendAssoc(old(client.svc.log), [c] + u, v2);
      assert ([c] + u)[1..] == u;
      AssetAlignedCreated(thing, models, assets, [c] + u, v2, err);
      v := [c] + u + v2;
    }

    /** The alias update of alignAssets, as a window of calls that starts by describing the asset. */
    method WriteAliases(assetId: string, aliases: map<string, string>) returns (err: Option<Error>, ghost v: seq<Call>)
      modifies client.svc
      ensures client.svc.log == old(client.svc.log) + v
      ensures AliasesUpdated(v, assetId, aliases, err)
      ensures err.Some? ==> CallError(v[|v| - 1]) == err
    {
      ghost var written;
      err, written := client.UpdateAssetProperties(assetId, aliases);
      Extends(old(client.svc.log), client.svc.log);
      v := client.svc.log[|old(client.svc.log)|..];
      if err.Some? && v[0].asset.Ok? {
        assert v[1..][|v[1..]| - 1] == v[|v| - 1];
      }
    }

    /**
     * alignAssets: align the asset of every thing and collect the errors,
     * one per failed thing, in order (the source aligns up to six things
     * concurrently; here they are aligned one after the other).
     */
    method AlignAssets(things: seq<Thing>, models: map<string, string>, assets: map<string, AssetDefinition>)
      returns (errs: seq<Error>, ghost outcomes: seq<Option<Error>>, ghost parts: seq<seq<Call>>, ghost w: seq<Call>)
      modifies client.svc
      ensures client.svc.log == old(client.svc.log) + w
      ensures w == Flatten(parts)
      ensures |outcomes| == |parts| == |things|
      ensures forall i :: 0 <= i < |things| ==> AssetAligned(things[i], models, assets, parts[i], outcomes[i])
      ensures errs == ErrorsOf(outcomes)
    {
      errs, outcomes, parts, w := [], [], [], [];
      for i := 0 to |things|
        invariant client.svc.log == old(client.svc.log) + w
        invariant w == Flatten(parts)
        invariant AllAligned(things[..i], models, assets, parts, outcomes)
        invariant errs == ErrorsOf(outcomes)
      {
        var err;
        ghost var v;
        err, v := AlignAsset(things[i], models, assets);
        AppendAssoc(old(client.svc.log), w, v);
        FlattenSnoc(parts, v);
        assert things[..i + 1][..i] == things[..i];
        AllAlignedSnoc(things[..i + 1], models, assets, parts, outcomes, v, err);
        assert (outcomes + [err])[..i] == outcomes;
        if err.Some? {
          errs := errs + [err.value];
        }
        w, parts, outcomes := w + v, parts + [v], outcomes + [err];
      }
      assert things[..|things|] == things;
    }

    /**
     * Align: discover the models and assets, align the models already
     * created, create the missing ones and align the assets; a failed stage
     * ends the run with its errors. When the run succeeds, every thing's
     * key has a model.
     */
    method Align(things: seq<Thing>, propertyDefinitions: map<string, PropertyTypeInfo>)
      returns (errs: seq<Error>, ghost models: map<string, string>, ghost w: seq<Call>)
      modifies client.svc
      ensures client.svc.log == old(client.svc.log) + w
      ensures errs == [] ==> ThingKeys(things) <= models.Keys
    {
      var thingsMap := ToThingMap(things);
      var uomMap := ExtractUomMap(propertyDefinitions);
      var discovered, definitions, err;
      ghost var w1, w2, order;
      discovered, definitions, err, w1 := GetSiteWiseModels();
      if err.Some? {
        return [err.value], discovered, w1;
      }
      var assets;
      assets, err, order, w2 := GetSiteWiseAssets(discovered);
      AppendAssoc(old(client.svc.log), w1, w2);
      w := w1 + w2;
      if err.Some? {
        return [err.value], discovered, w;
      }
      ghost var w3, w4, outcomes, parts, w5, visited, updates, creations;
      var adopted;
      adopted, errs, visited, updates, w3 := AlignAlreadyCreatedModels(thingsMap, discovered, definitions, assets, uomMap);
      AppendAssoc(old(client.svc.log), w, w3);
      w := w + w3;
      if |errs| > 0 {
        return errs, adopted, w;
      }
      var created;
      created, errs, creations, w4 := AlignModels(things, adopted, uomMap);
      AppendAssoc(old(client.svc.log), w, w4);
      w := w + w4;
      if |errs| > 0 {
        return errs, created, w;
      }
      errs, outcomes, parts, w5 := AlignAssets(things, created, assets);
      AppendAssoc(old(client.svc.log), w, w5);
      w := w + w5;
      models := created;
    }
  }
}
