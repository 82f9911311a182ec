/**
 * Time-series export: every asset the integration created for a thing gets
 * the thing's recent samples, fetched from the Arduino IoT Cloud series API
 * and written to SiteWise by property alias, at most ten points per request.
 * Time is in whole Unix seconds; float values are opaque payloads.
 */
module TsAlign {
  import opened Wrappers
  import opened Errors
  import opened Samples
  import opened GoStrings
  import opened Collections
  import opened Batching
  import opened SiteWiseApi
  import opened IotApi
  import opened SiteWiseClient
  import opened SchemaKey

  /** How many times a rate-limited series query is sent. */
  const RetryCount: nat := 5

  // ---------------------------------------------------------------------------
  // computeTimeAlignment
  // ---------------------------------------------------------------------------

  /** Resolutions of a minute or less are aligned to five minutes. */
  function EffectiveResolution(resolution: int): int
  {
    if resolution <= 60 then 300 else resolution
  }

  /** The extra five minutes the window is moved back by for resolutions up to a quarter of an hour. */
  function Shift(resolution: int): int
  {
    if EffectiveResolution(resolution) <= 900 then 300 else 0
  }

  datatype Window = Window(from: int, to: int)

  /**
   * Seconds from Go's zero time (1 January of year 1, UTC) to the Unix epoch.
   * time.Truncate rounds down to a multiple of the duration counted from the
   * zero time, not from the epoch.
   */
  const ZeroTimeOffset: int := 62135596800

  /**
   * computeTimeAlignment at Unix time `now`: the end is `now` rounded down
   * to a multiple of the effective resolution counted from the zero time,
   * moved back by Shift, and the window spans the given number of minutes
   * before it.
   */
  function ComputeTimeAlignment(resolution: int, windowMinutes: int, now: int): Window
  {
    var r := EffectiveResolution(resolution);
    var to := now - (now + ZeroTimeOffset) % r - Shift(resolution);
    Window(to - 60 * windowMinutes, to)
  }

  /**
   * The end of the window, moved forward by Shift, is a whole number of
   * effective resolutions after the zero time and within one resolution step
   * before `now`; the end is never in the future, and the window lasts
   * exactly the given number of minutes.
   */
  lemma TimeAlignmentBounds(resolution: int, windowMinutes: int, now: int)
    ensures EffectiveResolution(resolution) > 60
    ensures var w := ComputeTimeAlignment(resolution, windowMinutes, now);
      var r := EffectiveResolution(resolution);
      && (w.to + Shift(resolution) + ZeroTimeOffset) % r == 0
      && w.to + Shift(resolution) <= now < w.to + Shift(resolution) + r
      && w.to <= now
      && w.to - w.from == 60 * windowMinutes
  {
    var r := EffectiveResolution(resolution);
    var q := (now + ZeroTimeOffset) / r;
    var e := ComputeTimeAlignment(resolution, windowMinutes, now).to + Shift(resolution);
    assert e + ZeroTimeOffset == q * r;
    MultipleMod(q, r);
  }

  /**
   * No later multiple of the effective resolution, counted from the zero
   * time, lies at or before `now`: the end is rounded down, not up.
   */
  lemma TimeAlignmentLatest(resolution: int, windowMinutes: int, now: int, k: int)
    requires k * EffectiveResolution(resolution) - ZeroTimeOffset <= now
    ensures k * EffectiveResolution(resolution) - ZeroTimeOffset <= ComputeTimeAlignment(resolution, windowMinutes, now).to + Shift(resolution)
  {
    var r := EffectiveResolution(resolution);
    var q := (now + ZeroTimeOffset) / r;
    assert k * r < (q + 1) * r;
    MulMonotone(q + 1, k, r);
    MulMonotone(k, q, r);
  }

  /**
   * For every resolution the handler produces (1, 5, 15 and 60 minutes) the
   * zero time lies on the resolution's grid of Unix time, so the end of the
   * window is `now` rounded down to a multiple of the resolution in Unix
   * seconds.
   */
  lemma {:induction false} TimeAlignmentOnUnixGrid(resolution: int, windowMinutes: int, now: int)
    requires resolution == 60 || resolution == 300 || resolution == 900 || resolution == 3600
    ensures var r := EffectiveResolution(resolution);
      ComputeTimeAlignment(resolution, windowMinutes, now).to + Shift(resolution) == now / r * r
  {
    var r := EffectiveResolution(resolution);
    var c := ZeroTimeOffset / r;
    assert ZeroTimeOffset == c * r;
    ModAddMultiple(now, c, r);
  }

  /** A multiple of r leaves no remainder. */
  lemma MultipleMod(q: int, r: int)
    requires r > 0
    ensures (q * r) % r == 0
  {
    var d := (q * r) / r;
    var m := (q * r) % r;
    assert q * r == d * r + m;
    assert (q - d) * r == m;
    if q - d > 0 {
      MulMonotone(1, q - d, r);
    } else if q - d < 0 {
      MulMonotone(q - d, -1, r);
    }
  }

  /** Adding a multiple of r does not change the remainder. */
  lemma ModAddMultiple(a: int, c: int, r: int)
    requires r > 0
    ensures (a + c * r) % r == a % r
  {
    var d := (a + c * r) / r;
    var m := (a + c * r) % r;
    var d0 := a / r;
    var m0 := a % r;
    assert (d - c - d0) * r == m0 - m;
    if d - c - d0 > 0 {
      MulMonotone(1, d - c - d0, r);
    } else if d - c - d0 < 0 {
      MulMonotone(d - c - d0, -1, r);
    }
  }

  /** Multiplying by a non-negative factor keeps the order. */
  lemma MulMonotone(a: int, b: int, r: int)
    requires r >= 0
    ensures a <= b ==> a * r <= b * r
  {
    assert (b - a) * r == b * r - a * r;
    MulNonNegative(b - a, r);
  }

  lemma MulNonNegative(a: int, b: int)
    ensures a >= 0 && b >= 0 ==> a * b >= 0
  {
  }

  // ---------------------------------------------------------------------------
  // partitionResults / partitionSampledResults
  // ---------------------------------------------------------------------------

  /** A piece of a series: Unix times and the values paired with them. */
  datatype Chunk<V> = Chunk(ts: seq<Int64>, values: seq<V>)

  /**
   * The pieces a series is cut into: consecutive runs of Limit times with
   * their values, the last one possibly shorter. Values beyond the last time
   * are not used.
   */
  function PlannedChunks<V>(times: seq<Int64>, values: seq<V>): (chunks: seq<Chunk<V>>)
    requires |times| <= |values|
    ensures forall k :: 0 <= k < |chunks| ==> 0 < |chunks[k].ts| == |chunks[k].values| <= Limit
    decreases |times|
  {
    if |times| == 0 then []
    else if |times| <= Limit then [Chunk(times, values[..|times|])]
    else [Chunk(times[..Limit], values[..Limit])] + PlannedChunks(times[Limit..], values[Limit..])
  }

  function TimesOf<V>(chunks: seq<Chunk<V>>): (ts: seq<seq<Int64>>)
    ensures |ts| == |chunks|
  {
    if chunks == [] then [] else [chunks[0].ts] + TimesOf(chunks[1..])
  }

  function ValuesOf<V>(chunks: seq<Chunk<V>>): (vs: seq<seq<V>>)
    ensures |vs| == |chunks|
  {
    if chunks == [] then [] else [chunks[0].values] + ValuesOf(chunks[1..])
  }

  /** The pieces are the batches of the times, paired with the batches of the values used. */
  lemma {:induction false} PlannedChunksAreBatches<V>(times: seq<Int64>, values: seq<V>)
    requires |times| <= |values|
    ensures TimesOf(PlannedChunks(times, values)) == Chunks(times)
    ensures ValuesOf(PlannedChunks(times, values)) == Chunks(values[..|times|])
    decreases |times|
  {
    var vs := values[..|times|];
    if |times| > Limit {
      PlannedChunksAreBatches(times[Limit..], values[Limit..]);
      assert vs[Limit..] == values[Limit..][..|times[Limit..]|];
      assert vs[..Limit] == values[..Limit];
    } else if |times| > 0 {
      assert |vs| <= Limit;
    }
  }

  /**
   * There are ceil(n / Limit) pieces, every one but the last full, and
   * putting the pieces back together in order gives the times and the
   * values used.
   */
  lemma PlannedChunksFacts<V>(times: seq<Int64>, values: seq<V>)
    requires |times| <= |values|
    ensures |PlannedChunks(times, values)| == (|times| + Limit - 1) / Limit
    ensures forall k :: 0 <= k < |PlannedChunks(times, values)| - 1 ==> |PlannedChunks(times, values)[k].ts| == Limit
    ensures Flatten(TimesOf(PlannedChunks(times, values))) == times
    ensures Flatten(ValuesOf(PlannedChunks(times, values))) == values[..|times|]
  {
    var chunks := PlannedChunks(times, values);
    PlannedChunksAreBatches(times, values);
    ChunkCount(times);
    FlattenChunks(times);
    FlattenChunks(values[..|times|]);
    forall k | 0 <= k < |chunks| - 1
      ensures |chunks[k].ts| == Limit
    {
      TimesAt(chunks, k);
    }
  }

  lemma {:induction false} TimesAt<V>(chunks: seq<Chunk<V>>, k: nat)
    requires k < |chunks|
    ensures TimesOf(chunks)[k] == chunks[k].ts
    decreases k
  {
    if k > 0 {
      TimesAt(chunks[1..], k - 1);
    }
  }

  /** The piece counts the partition tests expect: 10 samples make 1 piece, 35 make 10, 10, 10, 5, and 60 make 6. */
  lemma PartitionExamples<V>(times: seq<Int64>, values: seq<V>)
    requires |times| == |values|
    ensures |times| == 10 ==> |PlannedChunks(times, values)| == 1
    ensures |times| == 35 ==>
      var cs := PlannedChunks(times, values);
      |cs| == 4 && |cs[0].ts| == 10 && |cs[1].ts| == 10 && |cs[2].ts| == 10 && |cs[3].ts| == 5
    ensures |times| == 60 ==> |PlannedChunks(times, values)| == 6
  {
    PlannedChunksFacts(times, values);
    if |times| == 35 {
      var cs := PlannedChunks(times, values);
      assert Flatten(TimesOf(cs)) == times;
      assert |Flatten(TimesOf(cs))| == |cs[0].ts| + |cs[1].ts| + |cs[2].ts| + |cs[3].ts| by {
        TimesAt(cs, 0);
        TimesAt(cs, 1);
        TimesAt(cs, 2);
        TimesAt(cs, 3);
        FlattenFour(TimesOf(cs));
      }
    }
  }

  lemma FlattenFour<T>(cs: seq<seq<T>>)
    requires |cs| == 4
    ensures |Flatten(cs)| == |cs[0]| + |cs[1]| + |cs[2]| + |cs[3]|
  {
    var c1 := cs[1..];
    var c2 := c1[1..];
    var c3 := c2[1..];
    assert Flatten(c3) == c3[0] + Flatten(c3[1..]) && c3[1..] == [];
    assert Flatten(c2) == c2[0] + Flatten(c3);
    assert Flatten(c1) == c1[0] + Flatten(c2);
    assert Flatten(cs) == cs[0] + Flatten(c1);
  }

  /** The first piece of the series from position i ends at `end`, the next position the loop visits. */
  lemma PlannedChunksFront<V>(times: seq<Int64>, values: seq<V>, i: nat, end: nat)
    requires |times| <= |values| && i < |times|
    requires end == if i + Limit > |times| then |times| else i + Limit
    ensures PlannedChunks(times[i..], values[i..]) == [Chunk(times[i..end], values[i..end])] + PlannedChunks(times[end..], values[end..])
  {
    var ts, vs := times[i..], values[i..];
    if end < |times| {
      assert |ts| > Limit;
      assert ts[..Limit] == times[i..end] && vs[..Limit] == values[i..end];
      assert ts[Limit..] == times[end..] && vs[Limit..] == values[end..];
    } else {
      assert 0 < |ts| <= Limit;
      assert ts == times[i..end] && vs[..|ts|] == values[i..end];
      assert PlannedChunks(times[end..], values[end..]) == [];
    }
  }

  /** The stepped loop of partitionResults and partitionSampledResults, for either kind of value. */
  method Partition<V>(times: seq<Int64>, values: seq<V>) returns (chunks: seq<Chunk<V>>)
    requires |times| <= |values|
    ensures chunks == PlannedChunks(times, values)
  {
    chunks := [];
    var i := 0;
    while i < |times|
      invariant i <= |times| ==> chunks + PlannedChunks(times[i..], values[i..]) == PlannedChunks(times, values)
      invariant i > |times| ==> chunks == PlannedChunks(times, values)
      decreases |times| - i
    {
      var end := i + Limit;
      if end > |times| {
        end := |times|;
      }
      var c := Chunk(times[i..end], values[i..end]);
      assert PlannedChunks(times[i..], values[i..]) == [c] + PlannedChunks(times[end..], values[end..]) by {
        PlannedChunksFront(times, values, i, end);
      }
      AppendAssoc(chunks, [c], PlannedChunks(times[end..], values[end..]));
      chunks := chunks + [c];
      i := i + Limit;
      if i > |times| {
        assert end == |times| && times[end..] == [];
      }
    }
  }

  /** partitionResults: the float series of a response, cut into pieces of at most Limit points. */
  method PartitionResults(response: SeriesResponse) returns (chunks: seq<Chunk<Double>>)
    requires |response.times| <= |response.values|
    ensures chunks == PlannedChunks(response.times, response.values)
  {
    chunks := Partition(response.times, response.values);
  }

  /** partitionSampledResults: the sampled series of a response, cut the same way. */
  method PartitionSampledResults(response: SampledResponse) returns (chunks: seq<Chunk<Sample>>)
    requires |response.times| <= |response.values|
    ensures chunks == PlannedChunks(response.times, response.values)
  {
    chunks := Partition(response.times, response.values);
  }

  // ---------------------------------------------------------------------------
  // mapPropertiesToImport
  // ---------------------------------------------------------------------------

  /** Whether the IoT library classifies the property's type as a string type. */
  predicate IsStringProperty(p: ThingProperty, catalog: TypeCatalog)
  {
    p.ptype in catalog.stringTypes
  }

  /** The thing properties with a given name, in order. */
  function Named(name: string, props: seq<ThingProperty>): seq<ThingProperty>
  {
    if props == [] then []
    else Named(name, props[..|props| - 1]) + (if props[|props| - 1].name == name then [props[|props| - 1]] else [])
  }

  /** A thing property is among those with a name exactly when it has that name. */
  lemma {:induction false} NamedIff(name: string, props: seq<ThingProperty>)
    ensures forall t :: t in Named(name, props) <==> t in props && t.name == name
    decreases |props|
  {
    if props != [] {
      var front := props[..|props| - 1];
      NamedIff(name, front);
      assert props == front + [props[|props| - 1]];
    }
  }

  /** The thing properties matched by each asset property in turn (the nested loops' visiting order). */
  function Matched(assetProps: seq<AssetProperty>, props: seq<ThingProperty>): seq<ThingProperty>
  {
    if assetProps == [] then []
    else Matched(assetProps[..|assetProps| - 1], props) + Named(assetProps[|assetProps| - 1].name, props)
  }

  /** The ids of the matched properties that are (or are not) of a string type, in order. */
  function Bucket(matched: seq<ThingProperty>, strings: bool, catalog: TypeCatalog): seq<string>
  {
    if matched == [] then []
    else
      var t := matched[|matched| - 1];
      Bucket(matched[..|matched| - 1], strings, catalog) + (if IsStringProperty(t, catalog) == strings then [t.id] else [])
  }

  /** The (property id, alias) pairs stored while matching, in order. */
  function AliasPairs(thingId: string, matched: seq<ThingProperty>): seq<(string, string)>
  {
    if matched == [] then []
    else
      var t := matched[|matched| - 1];
      AliasPairs(thingId, matched[..|matched| - 1]) + [(t.id, PropertyAlias(thingId, t.name))]
  }

  /** The names of an asset's properties. */
  ghost function AssetNames(assetProps: seq<AssetProperty>): set<string>
  {
    set a | a in assetProps :: a.name
  }

  /** A thing property is matched exactly when some asset property has its name. */
  lemma {:induction false} MatchedIff(assetProps: seq<AssetProperty>, props: seq<ThingProperty>)
    ensures forall t :: t in Matched(assetProps, props) <==> t in props && t.name in AssetNames(assetProps)
    decreases |assetProps|
  {
    if assetProps != [] {
      var front := assetProps[..|assetProps| - 1];
      var last := assetProps[|assetProps| - 1];
      MatchedIff(front, props);
      NamedIff(last.name, props);
      assert AssetNames(assetProps) == AssetNames(front) + {last.name} by {
        assert assetProps == front + [last];
      }
    }
  }

  /** An id is in a bucket exactly when a matched property of that kind has it. */
  lemma {:induction false} BucketIff(matched: seq<ThingProperty>, strings: bool, catalog: TypeCatalog)
    ensures forall id :: id in Bucket(matched, strings, catalog) <==>
      exists t :: t in matched && t.id == id && IsStringProperty(t, catalog) == strings
    decreases |matched|
  {
    if matched != [] {
      var front := matched[..|matched| - 1];
      BucketIff(front, strings, catalog);
      assert matched == front + [matched[|matched| - 1]];
    }
  }

  /** The aliases are stored under the ids of the matched properties, each value naming one of them. */
  lemma {:induction false} AliasPairsFacts(thingId: string, matched: seq<ThingProperty>)
    ensures |AliasPairs(thingId, matched)| == |matched|
    ensures forall k :: 0 <= k < |matched| ==> AliasPairs(thingId, matched)[k] == (matched[k].id, PropertyAlias(thingId, matched[k].name))
    decreases |matched|
  {
    if matched != [] {
      AliasPairsFacts(thingId, matched[..|matched| - 1]);
    }
  }

  /** Distinct thing properties have distinct ids. */
  predicate UniqueIds(props: seq<ThingProperty>)
  {
    forall i, j :: 0 <= i < |props| && 0 <= j < |props| && props[i].id == props[j].id ==> i == j
  }

  /** What mapPropertiesToImport returns, from the asset's properties and the thing. */
  function PlanImport(assetProps: seq<AssetProperty>, thing: Thing, catalog: TypeCatalog)
    : (seq<string>, seq<string>, map<string, string>)
  {
    var matched := Matched(assetProps, thing.properties);
    (Bucket(matched, false, catalog), Bucket(matched, true, catalog), LastWins(AliasPairs(thing.id, matched)))
  }

  /**
   * For a thing whose property ids are distinct: a property is imported
   * exactly when the asset has a property of its name; it then goes to the
   * string list if its type is a string type and to the primary list
   * otherwise, never to both, and its alias is "/<thing id>/<name>".
   */
  lemma ImportBuckets(assetProps: seq<AssetProperty>, thing: Thing, catalog: TypeCatalog, t: ThingProperty)
    requires UniqueIds(thing.properties) && t in thing.properties
    ensures var (primary, chars, aliases) := PlanImport(assetProps, thing, catalog);
      && (t.id in primary <==> t.name in AssetNames(assetProps) && !IsStringProperty(t, catalog))
      && (t.id in chars <==> t.name in AssetNames(assetProps) && IsStringProperty(t, catalog))
      && (t.id in aliases <==> t.name in AssetNames(assetProps))
      && (t.id in aliases ==> aliases[t.id] == PropertyAlias(thing.id, t.name))
  {
    var matched := Matched(assetProps, thing.properties);
    MatchedIff(assetProps, thing.properties);
    SameIdSameProperty(thing.properties, matched, t);
    BucketIff(matched, false, catalog);
    BucketIff(matched, true, catalog);
    ImportedAlias(thing.id, matched, t);
  }

  /** Every stored alias is for the id of one of the thing's properties. */
  lemma ImportAliasKeys(assetProps: seq<AssetProperty>, thing: Thing, catalog: TypeCatalog)
    ensures forall id :: id in PlanImport(assetProps, thing, catalog).2 ==> exists t :: t in thing.properties && t.id == id
  {
    var matched := Matched(assetProps, thing.properties);
    var pairs := AliasPairs(thing.id, matched);
    MatchedIff(assetProps, thing.properties);
    AliasPairsFacts(thing.id, matched);
    LastWinsDomain(pairs);
    forall id | id in LastWins(pairs)
      ensures exists t :: t in thing.properties && t.id == id
    {
      var k :| 0 <= k < |pairs| && pairs[k].0 == id && pairs[k].1 == LastWins(pairs)[id];
      assert matched[k] in matched;
    }
  }

  /** The alias stored under the id of a property that is the only one with its id among the matched ones. */
  lemma ImportedAlias(thingId: string, matched: seq<ThingProperty>, t: ThingProperty)
    requires forall u :: u in matched && u.id == t.id ==> u == t
    ensures t.id in LastWins(AliasPairs(thingId, matched)) <==> t in matched
    ensures t in matched ==> LastWins(AliasPairs(thingId, matched))[t.id] == PropertyAlias(thingId, t.name)
  {
    var pairs := AliasPairs(thingId, matched);
    AliasPairsFacts(thingId, matched);
    LastWinsDomain(pairs);
    if t in matched {
      var k :| 0 <= k < |matched| && matched[k] == t;
      assert pairs[k].0 == t.id;
    }
    if t.id in LastWins(pairs) {
      var k :| 0 <= k < |pairs| && pairs[k].0 == t.id && pairs[k].1 == LastWins(pairs)[t.id];
      assert matched[k] in matched;
    }
  }

  /** With distinct ids, a matched property carrying the id of a thing property is that property. */
  lemma SameIdSameProperty(props: seq<ThingProperty>, matched: seq<ThingProperty>, t: ThingProperty)
    requires UniqueIds(props) && t in props
    requires forall u :: u in matched ==> u in props
    ensures forall u :: u in matched && u.id == t.id ==> u == t
  {
    forall u | u in matched && u.id == t.id
      ensures u == t
    {
      var i :| 0 <= i < |props| && props[i] == u;
      var j :| 0 <= j < |props| && props[j] == t;
    }
  }

  /** Matching one more property appends its id to its bucket and its alias to the pairs. */
  lemma MatchStep(thingId: string, matched: seq<ThingProperty>, t: ThingProperty, catalog: TypeCatalog)
    ensures Bucket(matched + [t], false, catalog) == Bucket(matched, false, catalog) + (if IsStringProperty(t, catalog) then [] else [t.id])
    ensures Bucket(matched + [t], true, catalog) == Bucket(matched, true, catalog) + (if IsStringProperty(t, catalog) then [t.id] else [])
    ensures LastWins(AliasPairs(thingId, matched + [t])) == LastWins(AliasPairs(thingId, matched))[t.id := PropertyAlias(thingId, t.name)]
  {
    assert (matched + [t])[..|matched|] == matched;
    LastWinsSnoc(AliasPairs(thingId, matched), (t.id, PropertyAlias(thingId, t.name)));
  }

  /**
   * mapPropertiesToImport: for every asset property, and every thing
   * property of the same name, append the thing property's id to the string
   * or the primary list by its type and store its alias under the id.
   */
  method MapPropertiesToImport(assetProps: seq<AssetProperty>, thing: Thing, catalog: TypeCatalog)
    returns (primary: seq<string>, chars: seq<string>, aliases: map<string, string>)
    ensures (primary, chars, aliases) == PlanImport(assetProps, thing, catalog)
  {
    primary, chars, aliases := [], [], map[];
    ghost var matched: seq<ThingProperty> := [];
    for i := 0 to |assetProps|
      invariant matched == Matched(assetProps[..i], thing.properties)
      invariant primary == Bucket(matched, false, catalog) && chars == Bucket(matched, true, catalog)
      invariant aliases == LastWins(AliasPairs(thing.id, matched))
    {
      assert Matched(assetProps[..i + 1], thing.properties) == matched + Named(assetProps[i].name, thing.properties) by {
        assert assetProps[..i + 1][..i] == assetProps[..i];
      }
      primary, chars, aliases, matched := MatchName(assetProps[i].name, thing, catalog, primary, chars, aliases, matched);
    }
    assert assetProps[..|assetProps|] == assetProps;
  }

  /** The inner loop of mapPropertiesToImport: the thing properties with the asset property's name. */
  method MatchName(name: string, thing: Thing, catalog: TypeCatalog,
                   primary: seq<string>, chars: seq<string>, aliases: map<string, string>, ghost matched: seq<ThingProperty>)
    returns (primary': seq<string>, chars': seq<string>, aliases': map<string, string>, ghost matched': seq<ThingProperty>)
    requires primary == Bucket(matched, false, catalog) && chars == Bucket(matched, true, catalog)
    requires aliases == LastWins(AliasPairs(thing.id, matched))
    ensures matched' == matched + Named(name, thing.properties)
    ensures primary' == Bucket(matched', false, catalog) && chars' == Bucket(matched', true, catalog)
    ensures aliases' == LastWins(AliasPairs(thing.id, matched'))
  {
    var props := thing.properties;
    primary', chars', aliases', matched' := primary, chars, aliases, matched;
    for j := 0 to |props|
      invariant matched' == matched + Named(name, props[..j])
      invariant primary' == Bucket(matched', false, catalog) && chars' == Bucket(matched', true, catalog)
      invariant aliases' == LastWins(AliasPairs(thing.id, matched'))
    {
      var t := props[j];
      assert Named(name, props[..j + 1]) == Named(name, props[..j]) + (if t.name == name then [t] else []) by {
        assert props[..j + 1][..j] == props[..j];
      }
      if t.name == name {
        MatchStep(thing.id, matched', t, catalog);
        if IsStringProperty(t, catalog) {
          chars' := chars' + [t.id];
        } else {
          primary' := primary' + [t.id];
        }
        aliases' := aliases'[t.id := PropertyAlias(thing.id, name)];
        AppendAssoc(matched, Named(name, props[..j]), [t]);
        matched' := matched' + [t];
      }
    }
    assert props[..|props|] == props;
  }

  // ---------------------------------------------------------------------------
  // populateTSDataIntoSiteWise / populateCharTSDataIntoSiteWise: what is planned
  // ---------------------------------------------------------------------------

  /** The property id a response answers for: its query with the first "property." removed. */
  function ResponseId(query: string): string
  {
    ReplaceFirst(query, "property.", "")
  }

  /** The response to the query of a property carries that property's id back. */
  lemma ResponseIdOfQuery(id: string)
    ensures ResponseId("property." + id) == id
  {
    ReplaceFirstOfPrefixed("property.", id);
  }

  /** Every query of a sampled request answers for the id it was made for. */
  lemma QueriesAnswerIds(ids: seq<string>)
    ensures forall i :: 0 <= i < |ids| ==> ResponseId(PropertyQueries(ids)[i]) == ids[i]
  {
    forall i | 0 <= i < |ids|
      ensures ResponseId(PropertyQueries(ids)[i]) == ids[i]
    {
      ResponseIdOfQuery(ids[i]);
    }
  }

  /**
   * The alias a response is written under: none when it holds no values,
   * when its id is not among those to import, or when the id's alias is
   * missing or empty.
   */
  function Target(countValues: int, query: string, ids: seq<string>, aliases: map<string, string>): (t: Option<string>)
    ensures t.Some? <==>
      countValues != 0 && ResponseId(query) in ids && ResponseId(query) in aliases && aliases[ResponseId(query)] != ""
    ensures t.Some? ==> t.value == aliases[ResponseId(query)]
  {
    if countValues == 0 then None
    else
      var id := ResponseId(query);
      if id !in ids then None
      else
        var alias := if id in aliases then aliases[id] else "";
        if alias == "" then None else Some(alias)
  }

  predicate WellFormedSeries(responses: seq<SeriesResponse>)
  {
    forall k :: 0 <= k < |responses| ==> |responses[k].times| <= |responses[k].values|
  }

  predicate WellFormedSampled(responses: seq<SampledResponse>)
  {
    forall k :: 0 <= k < |responses| ==> |responses[k].times| <= |responses[k].values|
  }

  /** One write per piece of a float series: a single entry "1" under the alias. */
  function SeriesChunkBatches(alias: string, chunks: seq<Chunk<Double>>): (batches: seq<seq<Entry>>)
    requires forall k :: 0 <= k < |chunks| ==> |chunks[k].ts| == |chunks[k].values|
    ensures |batches| == |chunks|
    ensures forall k :: 0 <= k < |chunks| ==> batches[k] == [Entry("1", alias, SeriesPoints(chunks[k].ts, chunks[k].values))]
  {
    if chunks == [] then []
    else [[Entry("1", alias, SeriesPoints(chunks[0].ts, chunks[0].values))]] + SeriesChunkBatches(alias, chunks[1..])
  }

  /** One write per piece of a sampled series: a single entry "1" under the alias. */
  function SampledChunkBatches(alias: string, chunks: seq<Chunk<Sample>>): (batches: seq<seq<Entry>>)
    requires forall k :: 0 <= k < |chunks| ==> |chunks[k].ts| == |chunks[k].values|
    ensures |batches| == |chunks|
    ensures forall k :: 0 <= k < |chunks| ==> batches[k] == [Entry("1", alias, SampledPoints(chunks[k].ts, chunks[k].values))]
  {
    if chunks == [] then []
    else [[Entry("1", alias, SampledPoints(chunks[0].ts, chunks[0].values))]] + SampledChunkBatches(alias, chunks[1..])
  }

  /** The writes of the float responses, in order; a skipped response writes nothing. */
  function SeriesBatches(responses: seq<SeriesResponse>, ids: seq<string>, aliases: map<string, string>): seq<seq<Entry>>
    requires WellFormedSeries(responses)
  {
    if responses == [] then []
    else
      var r := responses[|responses| - 1];
      SeriesBatches(responses[..|responses| - 1], ids, aliases) + SeriesResponseBatches(r, ids, aliases)
  }

  /** The writes of one response: none when it is skipped, otherwise one per piece of its series. */
  function SeriesResponseBatches(r: SeriesResponse, ids: seq<string>, aliases: map<string, string>): seq<seq<Entry>>
    requires |r.times| <= |r.values|
  {
    match Target(r.countValues, r.query, ids, aliases)
    case None => []
    case Some(alias) => SeriesChunkBatches(alias, PlannedChunks(r.times, r.values))
  }

  /** The writes of the sampled responses, in order; a skipped response writes nothing. */
  function SampledBatches(responses: seq<SampledResponse>, ids: seq<string>, aliases: map<string, string>): seq<seq<Entry>>
    requires WellFormedSampled(responses)
  {
    if responses == [] then []
    else
      var r := responses[|responses| - 1];
      SampledBatches(responses[..|responses| - 1], ids, aliases) + SampledResponseBatches(r, ids, aliases)
  }

  /** The writes of one response: none when it is skipped, otherwise one per piece of its series. */
  function SampledResponseBatches(r: SampledResponse, ids: seq<string>, aliases: map<string, string>): seq<seq<Entry>>
    requires |r.times| <= |r.values|
  {
    match Target(r.countValues, r.query, ids, aliases)
    case None => []
    case Some(alias) => SampledChunkBatches(alias, PlannedChunks(r.times, r.values))
  }

  /** The points of a list of writes, entry after entry. */
  function BatchPoints(batches: seq<seq<Entry>>): seq<PropertyValue>
  {
    if batches == [] then [] else EntryPoints(batches[0]) + BatchPoints(batches[1..])
  }

  function EntryPoints(entries: seq<Entry>): seq<PropertyValue>
  {
    if entries == [] then [] else entries[0].values + EntryPoints(entries[1..])
  }

  lemma EntryPointsOne(e: Entry)
    ensures EntryPoints([e]) == e.values
  {
    assert [e][1..] == [];
  }

  /** Cutting a float series in two cuts its points in two. */
  lemma SeriesPointsSplit(ts: seq<Int64>, values: seq<Double>, m: nat)
    requires |ts| == |values| && m <= |ts|
    ensures SeriesPoints(ts, values) == SeriesPoints(ts[..m], values[..m]) + SeriesPoints(ts[m..], values[m..])
  {
    var whole, left, right := SeriesPoints(ts, values), SeriesPoints(ts[..m], values[..m]), SeriesPoints(ts[m..], values[m..]);
    forall i | 0 <= i < |ts|
      ensures whole[i] == (left + right)[i]
    {
      if i >= m {
        assert ts[m..][i - m] == ts[i] && values[m..][i - m] == values[i];
      }
    }
  }

  /**
   * The writes of one float series: each is a single entry "1" under the
   * alias with between 1 and Limit points, and together they write every
   * (time, value) pair of the series once, in order.
   */
  lemma {:induction false} SeriesWrites(alias: string, times: seq<Int64>, values: seq<Double>)
    requires |times| <= |values|
    ensures forall k :: 0 <= k < |SeriesChunkBatches(alias, PlannedChunks(times, values))| ==>
      var b := SeriesChunkBatches(alias, PlannedChunks(times, values))[k];
      |b| == 1 && b[0].entryId == "1" && b[0].alias == alias && 0 < |b[0].values| <= Limit
    ensures BatchPoints(SeriesChunkBatches(alias, PlannedChunks(times, values))) == SeriesPoints(times, values[..|times|])
    decreases |times|
  {
    var chunks := PlannedChunks(times, values);
    var batches := SeriesChunkBatches(alias, chunks);
    var n := |times|;
    if n == 0 {
    } else if n <= Limit {
      assert BatchPoints(batches) == EntryPoints(batches[0]) + BatchPoints(batches[1..]);
      assert batches[1..] == [];
      EntryPointsOne(batches[0][0]);
    } else {
      SeriesWrites(alias, times[Limit..], values[Limit..]);
      SeriesWritesSplit(alias, times, values);
    }
  }

  /** The points of a long float series: those of its first piece, then those of the rest. */
  lemma SeriesWritesSplit(alias: string, times: seq<Int64>, values: seq<Double>)
    requires Limit < |times| <= |values|
    ensures BatchPoints(SeriesChunkBatches(alias, PlannedChunks(times, values))) ==
      SeriesPoints(times[..Limit], values[..Limit]) + BatchPoints(SeriesChunkBatches(alias, PlannedChunks(times[Limit..], values[Limit..])))
    ensures SeriesPoints(times, values[..|times|]) ==
      SeriesPoints(times[..Limit], values[..Limit]) + SeriesPoints(times[Limit..], values[Limit..][..|times[Limit..]|])
  {
    var chunks := PlannedChunks(times, values);
    var batches := SeriesChunkBatches(alias, chunks);
    var rest := PlannedChunks(times[Limit..], values[Limit..]);
    assert chunks[1..] == rest;
    assert batches[1..] == SeriesChunkBatches(alias, rest);
    EntryPointsOne(batches[0][0]);
    var vs := values[..|times|];
    SeriesPointsSplit(times, vs, Limit);
    assert vs[..Limit] == values[..Limit];
    assert vs[Limit..] == values[Limit..][..|times[Limit..]|];
  }

  /**
   * The writes of one sampled series: each is a single entry "1" under the
   * alias with at most Limit points, and together they write the supported
   * samples of the series once, in order.
   */
  lemma {:induction false} SampledWrites(alias: string, times: seq<Int64>, values: seq<Sample>)
    requires |times| <= |values|
    ensures forall k :: 0 <= k < |SampledChunkBatches(alias, PlannedChunks(times, values))| ==>
      var b := SampledChunkBatches(alias, PlannedChunks(times, values))[k];
      |b| == 1 && b[0].entryId == "1" && b[0].alias == alias && |b[0].values| <= Limit
    ensures BatchPoints(SampledChunkBatches(alias, PlannedChunks(times, values))) == SampledPoints(times, values[..|times|])
    decreases |times|
  {
    var chunks := PlannedChunks(times, values);
    var batches := SampledChunkBatches(alias, chunks);
    var n := |times|;
    if n == 0 {
    } else if n <= Limit {
      assert BatchPoints(batches) == EntryPoints(batches[0]) + BatchPoints(batches[1..]);
      assert batches[1..] == [];
      EntryPointsOne(batches[0][0]);
    } else {
      SampledWrites(alias, times[Limit..], values[Limit..]);
      SampledWritesSplit(alias, times, values);
      SampledPointsSplit(times, values);
    }
  }

  /** The points written for a long sampled series: those of its first piece, then those of the rest. */
  lemma SampledWritesSplit(alias: string, times: seq<Int64>, values: seq<Sample>)
    requires Limit < |times| <= |values|
    ensures BatchPoints(SampledChunkBatches(alias, PlannedChunks(times, values))) ==
      SampledPoints(times[..Limit], values[..Limit]) + BatchPoints(SampledChunkBatches(alias, PlannedChunks(times[Limit..], values[Limit..])))
  {
    var chunks := PlannedChunks(times, values);
    var batches := SampledChunkBatches(alias, chunks);
    var rest := PlannedChunks(times[Limit..], values[Limit..]);
    assert chunks[1..] == rest;
    assert batches[1..] == SampledChunkBatches(alias, rest);
    EntryPointsOne(batches[0][0]);
  }

  /** The supported samples of a long series: those of its first piece, then those of the rest. */
  lemma SampledPointsSplit(times: seq<Int64>, values: seq<Sample>)
    requires Limit < |times| <= |values|
    ensures SampledPoints(times, values[..|times|]) ==
      SampledPoints(times[..Limit], values[..Limit]) + SampledPoints(times[Limit..], values[Limit..][..|times[Limit..]|])
  {
    var vs := values[..|times|];
    SampledPointsAppend(times[..Limit], vs[..Limit], times[Limit..], vs[Limit..]);
    assert times[..Limit] + times[Limit..] == times && vs[..Limit] + vs[Limit..] == vs;
    assert vs[..Limit] == values[..Limit];
    assert vs[Limit..] == values[Limit..][..|times[Limit..]|];
  }

  /** The responses before position i plan the writes before those of response i. */
  lemma SeriesBatchesStep(responses: seq<SeriesResponse>, i: nat, ids: seq<string>, aliases: map<string, string>)
    requires WellFormedSeries(responses) && i < |responses|
    ensures WellFormedSeries(responses[..i]) && WellFormedSeries(responses[..i + 1])
    ensures SeriesBatches(responses[..i + 1], ids, aliases) == SeriesBatches(responses[..i], ids, aliases) + SeriesResponseBatches(responses[i], ids, aliases)
  {
    assert responses[..i + 1][..i] == responses[..i];
  }

  lemma SampledBatchesStep(responses: seq<SampledResponse>, i: nat, ids: seq<string>, aliases: map<string, string>)
    requires WellFormedSampled(responses) && i < |responses|
    ensures WellFormedSampled(responses[..i]) && WellFormedSampled(responses[..i + 1])
    ensures SampledBatches(responses[..i + 1], ids, aliases) == SampledBatches(responses[..i], ids, aliases) + SampledResponseBatches(responses[i], ids, aliases)
  {
    assert responses[..i + 1][..i] == responses[..i];
  }

  /** The writes planned for the first n responses come first. */
  lemma {:induction false} SeriesBatchesPrefix(responses: seq<SeriesResponse>, n: nat, ids: seq<string>, aliases: map<string, string>)
    returns (rest: seq<seq<Entry>>)
    requires WellFormedSeries(responses) && n <= |responses|
    ensures WellFormedSeries(responses[..n])
    ensures SeriesBatches(responses, ids, aliases) == SeriesBatches(responses[..n], ids, aliases) + rest
    decreases |responses| - n
  {
    if n == |responses| {
      assert responses[..n] == responses;
      rest := [];
    } else {
      var rest' := SeriesBatchesPrefix(responses, n + 1, ids, aliases);
      SeriesBatchesStep(responses, n, ids, aliases);
      var own := SeriesBatches(responses[..n + 1], ids, aliases)[|SeriesBatches(responses[..n], ids, aliases)|..];
      AppendAssoc(SeriesBatches(responses[..n], ids, aliases), own, rest');
      rest := own + rest';
    }
  }

  lemma {:induction false} SampledBatchesPrefix(responses: seq<SampledResponse>, n: nat, ids: seq<string>, aliases: map<string, string>)
    returns (rest: seq<seq<Entry>>)
    requires WellFormedSampled(responses) && n <= |responses|
    ensures WellFormedSampled(responses[..n])
    ensures SampledBatches(responses, ids, aliases) == SampledBatches(responses[..n], ids, aliases) + rest
    decreases |responses| - n
  {
    if n == |responses| {
      assert responses[..n] == responses;
      rest := [];
    } else {
      var rest' := SampledBatchesPrefix(responses, n + 1, ids, aliases);
      SampledBatchesStep(responses, n, ids, aliases);
      var own := SampledBatches(responses[..n + 1], ids, aliases)[|SampledBatches(responses[..n], ids, aliases)|..];
      AppendAssoc(SampledBatches(responses[..n], ids, aliases), own, rest');
      rest := own + rest';
    }
  }

  // ---------------------------------------------------------------------------
  // The retried fetch
  // ---------------------------------------------------------------------------

  /**
   * The queries of the aggregated-series retry loop: none for an empty thing
   * id; otherwise between 1 and RetryCount identical queries, every one but
   * the last rate-limited, and the last one not rate-limited unless the
   * attempts ran out.
   */
  ghost predicate SeriesRetries(q: seq<Query>, thingId: string, from: int, to: int, interval: int)
  {
    if thingId == "" then q == []
    else
      && 0 < |q| <= RetryCount
      && (forall k :: 0 <= k < |q| ==> q[k].SeriesCall? && q[k] == SeriesCall(thingId, from, to, interval, q[k].series))
      && (forall k :: 0 <= k < |q| - 1 ==> q[k].series.retry)
      && (|q| < RetryCount ==> !q[|q| - 1].series.retry)
  }

  /** What the retry loop ends with: the reply of its last query, or the empty-id error. */
  function SeriesFetched(q: seq<Query>): Fetch<SeriesResponse>
  {
    if q == [] || !q[|q| - 1].SeriesCall? then Fetch(None, false, Some(Failure("no thing provided")))
    else q[|q| - 1].series
  }

  /** The queries of the sampled-series retry loop, the same way; an empty id list makes none. */
  ghost predicate SampledRetries(q: seq<Query>, ids: seq<string>, from: int, to: int, interval: int)
  {
    if ids == [] then q == []
    else
      && 0 < |q| <= RetryCount
      && (forall k :: 0 <= k < |q| ==> q[k].SampledCall? && q[k] == SampledCall(PropertyQueries(ids), from, to, interval, q[k].sampled))
      && (forall k :: 0 <= k < |q| - 1 ==> q[k].sampled.retry)
      && (|q| < RetryCount ==> !q[|q| - 1].sampled.retry)
  }

  function SampledFetched(q: seq<Query>): Fetch<SampledResponse>
  {
    if q == [] || !q[|q| - 1].SampledCall? then Fetch(None, false, Some(Failure("no valid properties provided")))
    else q[|q| - 1].sampled
  }

  /**
   * One run of populateTSDataIntoSiteWise, seen from both services: the
   * retried fetch; its error, with no write, when it failed; otherwise the
   * writes of the fetched responses in order, ending at the first failed one.
   */
  ghost predicate SeriesExport(q: seq<Query>, w: seq<Call>, err: Option<Error>, thingId: string,
                               ids: seq<string>, aliases: map<string, string>, resolution: int, window: Window)
  {
    && SeriesRetries(q, thingId, window.from, window.to, resolution)
    && var fetched := SeriesFetched(q);
       && (fetched.err.Some? ==> err == fetched.err && w == [])
       && (fetched.err.None? ==>
             && fetched.batch.Some? && WellFormedSeries(fetched.batch.value)
             && SendsBatches(w, SeriesBatches(fetched.batch.value, ids, aliases), err))
  }

  /** One run of populateCharTSDataIntoSiteWise, the same way; the interval is the resolution narrowed to 32 bits. */
  ghost predicate SampledExport(q: seq<Query>, w: seq<Call>, err: Option<Error>,
                                ids: seq<string>, aliases: map<string, string>, resolution: Int64, window: Window)
  {
    && SampledRetries(q, ids, window.from, window.to, ToInt32(resolution))
    && var fetched := SampledFetched(q);
       && (fetched.err.Some? ==> err == fetched.err && w == [])
       && (fetched.err.None? ==>
             && fetched.batch.Some? && WellFormedSampled(fetched.batch.value)
             && SendsBatches(w, SampledBatches(fetched.batch.value, ids, aliases), err))
  }

  /**
   * Returning the fetch error after a failed write, as populate*IntoSiteWise
   * do, reports success for a run whose writes stopped early: here the
   * first of two writes fails, nothing more is sent, and the fetch error is
   * nil.
   */
  lemma SwallowedPushError(e: Error, b1: seq<Entry>, b2: seq<Entry>)
    ensures var w := [BatchPutCall(b1, Err(e))];
      && SendsBatches(w, [b1, b2], Some(e))
      && !SendsBatches(w, [b1, b2], None)
      && |w| < |[b1, b2]|
  {
  }

  // ---------------------------------------------------------------------------
  // AlignTimeSeriesSamplesIntoSiteWise: which assets are exported
  // ---------------------------------------------------------------------------

  /** The ids of the listed assets that are exported: those whose external id names a known thing, in order. */
  function ExportIds(items: seq<AssetSummary>, things: map<string, Thing>): (ids: seq<string>)
    ensures |ids| <= |items|
  {
    if items == [] then []
    else
      var s := items[|items| - 1];
      ExportIds(items[..|items| - 1], things) + (if s.externalId.Some? && s.externalId.value in things then [s.id] else [])
  }

  /** An asset is exported exactly when it has an external id naming a known thing. */
  lemma {:induction false} ExportIdsIff(items: seq<AssetSummary>, things: map<string, Thing>)
    ensures forall id :: id in ExportIds(items, things) <==>
      exists s :: s in items && s.id == id && s.externalId.Some? && s.externalId.value in things
  {
    if items != [] {
      var front := items[..|items| - 1];
      ExportIdsIff(front, things);
      assert forall s :: s in items <==> s in front || s == items[|items| - 1];
    }
  }

  lemma {:induction false} ExportIdsAppend(a: seq<AssetSummary>, b: seq<AssetSummary>, things: map<string, Thing>)
    ensures ExportIds(a + b, things) == ExportIds(a, things) + ExportIds(b, things)
    decreases |b|
  {
    if b == [] {
      assert a + b == a;
    } else {
      var l := |b| - 1;
      assert (a + b)[..|a + b| - 1] == a + b[..l];
      ExportIdsAppend(a, b[..l], things);
      AppendAssoc(ExportIds(a, things), ExportIds(b[..l], things),
        if b[l].externalId.Some? && b[l].externalId.value in things then [b[l].id] else []);
    }
  }

  /** The exported asset ids of the listed models, model after model, each over all pages of its listing. */
  function ModelsExportIds(assetPages: string -> seq<seq<AssetSummary>>, models: seq<ModelSummary>, things: map<string, Thing>): seq<string>
  {
    if models == [] then []
    else
      var m := models[|models| - 1];
      ModelsExportIds(assetPages, models[..|models| - 1], things) + ExportIds(Flatten(assetPages(m.id)), things)
  }

  /** The ids of the assets described in a run, in order. */
  function DescribedAssetIds(w: seq<Call>): seq<string>
  {
    if w == [] then []
    else
      var c := w[|w| - 1];
      DescribedAssetIds(w[..|w| - 1]) + (if c.DescribeAssetCall? then [c.assetId] else [])
  }

  lemma {:induction false} DescribedAssetIdsAppend(a: seq<Call>, b: seq<Call>)
    ensures DescribedAssetIds(a + b) == DescribedAssetIds(a) + DescribedAssetIds(b)
    decreases |b|
  {
    if b == [] {
      assert a + b == a;
    } else {
      var l := |b| - 1;
      assert (a + b)[..|a + b| - 1] == a + b[..l];
      DescribedAssetIdsAppend(a, b[..l]);
      AppendAssoc(DescribedAssetIds(a), DescribedAssetIds(b[..l]), if b[l].DescribeAssetCall? then [b[l].assetId] else []);
    }
  }

  /** The calls of the export pass only list assets, describe assets and write values: it changes no model or asset. */
  ghost predicate ExportCalls(w: seq<Call>)
  {
    forall k :: 0 <= k < |w| ==> w[k].ListAssetsCall? || w[k].DescribeAssetCall? || w[k].BatchPutCall?
  }

  lemma ExportCallsAppend(a: seq<Call>, b: seq<Call>)
    requires ExportCalls(a) && ExportCalls(b)
    ensures ExportCalls(a + b)
  {
    forall k | 0 <= k < |a + b|
      ensures (a + b)[k].ListAssetsCall? || (a + b)[k].DescribeAssetCall? || (a + b)[k].BatchPutCall?
    {
      if k >= |a| {
        assert (a + b)[k] == b[k - |a|];
      }
    }
  }

  /** Calls that only write values. */
  ghost predicate WritesOnly(w: seq<Call>)
  {
    forall k :: 0 <= k < |w| ==> w[k].BatchPutCall?
  }

  lemma WritesOnlyAppend(a: seq<Call>, b: seq<Call>)
    requires WritesOnly(a) && WritesOnly(b)
    ensures WritesOnly(a + b)
  {
    forall k | 0 <= k < |a + b|
      ensures (a + b)[k].BatchPutCall?
    {
      if k >= |a| {
        assert (a + b)[k] == b[k - |a|];
      }
    }
  }

  /** Calls that describe no asset add no described asset. */
  lemma {:induction false} DescribedAssetIdsOfWrites(w: seq<Call>)
    requires forall k :: 0 <= k < |w| ==> !w[k].DescribeAssetCall?
    ensures DescribedAssetIds(w) == []
  {
    if w != [] {
      DescribedAssetIdsOfWrites(w[..|w| - 1]);
    }
  }

  /** Listing one more page and exporting its assets extends the exported ids by those of the page. */
  lemma ExportPageStep(w: seq<Call>, c: Call, v: seq<Call>, pages: seq<seq<AssetSummary>>, token: Option<nat>, things: map<string, Thing>)
    requires PageIndex(token) <= |pages| && c.ListAssetsCall?
    requires ExportCalls(w) && ExportCalls(v)
    requires DescribedAssetIds(w) == ExportIds(Flatten(pages[..PageIndex(token)]), things)
    requires DescribedAssetIds(v) == ExportIds(PageAt(pages, token).items, things)
    ensures ExportCalls(w + [c] + v)
    ensures PageAt(pages, token).next.Some? ==>
      DescribedAssetIds(w + [c] + v) == ExportIds(Flatten(pages[..PageAt(pages, token).next.value]), things)
    ensures PageAt(pages, token).next.None? ==>
      DescribedAssetIds(w + [c] + v) == ExportIds(Flatten(pages), things)
  {
    ExportCallsAppend(w, [c]);
    ExportCallsAppend(w + [c], v);
    assert DescribedAssetIds(w + [c] + v) == DescribedAssetIds(w) + DescribedAssetIds(v) by {
      ListingDescribesNothing(w, c, v);
    }
    PageStep(pages, token);
    ExportIdsAppend(Flatten(pages[..PageIndex(token)]), PageAt(pages, token).items, things);
  }

  lemma ListingDescribesNothing(w: seq<Call>, c: Call, v: seq<Call>)
    requires c.ListAssetsCall?
    ensures DescribedAssetIds(w + [c] + v) == DescribedAssetIds(w) + DescribedAssetIds(v)
  {
    assert DescribedAssetIds([c]) == [] by {
      DescribedAssetIdsOfWrites([c]);
    }
    DescribedAssetIdsAppend(w, [c]);
    DescribedAssetIdsAppend(w + [c], v);
  }

  /**
   * The items of the pages before a token followed by those of the page it
   * names are the items of the pages before the next token, or of all pages
   * when there is none.
   */
  lemma PageStep<T>(pages: seq<seq<T>>, token: Option<nat>)
    requires PageIndex(token) <= |pages|
    ensures PageAt(pages, token).next.Some? ==>
      Flatten(pages[..PageIndex(token)]) + PageAt(pages, token).items == Flatten(pages[..PageAt(pages, token).next.value])
    ensures PageAt(pages, token).next.None? ==>
      Flatten(pages[..PageIndex(token)]) + PageAt(pages, token).items == Flatten(pages)
  {
    var k := PageIndex(token);
    if k + 1 < |pages| {
      PageStepMiddle(pages, k);
    } else if k + 1 == |pages| {
      PageStepLast(pages, k);
    } else {
      PageStepBeyond(pages, k);
    }
  }

  lemma PageStepMiddle<T>(pages: seq<seq<T>>, k: nat)
    requires k + 1 < |pages|
    ensures PageAt(pages, Some(k)) == Page(pages[k], Some(k + 1))
    ensures Flatten(pages[..k]) + pages[k] == Flatten(pages[..k + 1])
  {
    FlattenPrefixStep(pages, k);
  }

  lemma PageStepLast<T>(pages: seq<seq<T>>, k: nat)
    requires k + 1 == |pages|
    ensures PageAt(pages, Some(k)) == Page(pages[k], None) && PageAt(pages, None) == PageAt(pages, Some(0))
    ensures Flatten(pages[..k]) + pages[k] == Flatten(pages)
  {
    FlattenPrefixStep(pages, k);
    assert pages[..k + 1] == pages;
  }

  lemma PageStepBeyond<T>(pages: seq<seq<T>>, k: nat)
    requires k == |pages|
    ensures PageAt(pages, Some(k)) == Page([], None) && PageAt(pages, None) == PageAt(pages, Some(0))
    ensures Flatten(pages[..k]) + [] == Flatten(pages)
  {
    assert pages[..k] == pages;
  }

  // ---------------------------------------------------------------------------
  // The aligner
  // ---------------------------------------------------------------------------

  class TsAligner {
    const sitewise: Client
    const iot: IotClient
    /** The IoT type classification used to tell string properties apart. */
    const catalog: TypeCatalog

    constructor (sitewise: Client, iot: IotClient, catalog: TypeCatalog)
      ensures this.sitewise == sitewise && this.iot == iot && this.catalog == catalog
    {
      this.sitewise := sitewise;
      this.iot := iot;
      this.catalog := catalog;
    }

    /** The retry loop around GetTimeSeriesByThing: up to RetryCount queries, stopping at the first that is not rate-limited. */
    method FetchSeries(thingId: string, from: int, to: int, interval: int) returns (r: Fetch<SeriesResponse>, ghost q: seq<Query>)
      modifies iot
      ensures iot.log == old(iot.log) + q
      ensures SeriesRetries(q, thingId, from, to, interval) && r == SeriesFetched(q)
      ensures r.err.None? ==> r.batch.Some? && (iot.WellFormed() ==> WellFormedSeries(r.batch.value))
    {
      q := [];
      r := Fetch(None, false, None);
      var i := 0;
      while i < RetryCount
        invariant 0 <= i <= RetryCount
        invariant iot.log == old(iot.log) + q
        invariant thingId == "" ==> i == 0 && q == []
        invariant thingId != "" ==> |q| == i
        invariant forall k :: 0 <= k < |q| ==> q[k].SeriesCall? && q[k] == SeriesCall(thingId, from, to, interval, q[k].series)
        invariant forall k :: 0 <= k < |q| ==> q[k].series.retry
        invariant i > 0 ==> r == q[i - 1].series && (r.batch.Some? <==> r.err.None?)
        invariant i > 0 && r.batch.Some? && iot.WellFormed() ==> WellFormedSeries(r.batch.value)
      {
        r := iot.GetTimeSeriesByThing(thingId, from, to, interval);
        if thingId != "" {
          q := q + [SeriesCall(thingId, from, to, interval, r)];
        }
        if !r.retry {
          break;
        }
        i := i + 1;
      }
    }

    /** The retry loop around GetTimeSeriesSampling, the same way. */
    method FetchSampled(ids: seq<string>, from: int, to: int, interval: int) returns (r: Fetch<SampledResponse>, ghost q: seq<Query>)
      modifies iot
      ensures iot.log == old(iot.log) + q
      ensures SampledRetries(q, ids, from, to, interval) && r == SampledFetched(q)
      ensures r.err.None? ==> r.batch.Some? && (iot.WellFormed() ==> WellFormedSampled(r.batch.value))
    {
      q := [];
      r := Fetch(None, false, None);
      var i := 0;
      while i < RetryCount
        invariant 0 <= i <= RetryCount
        invariant iot.log == old(iot.log) + q
        invariant ids == [] ==> i == 0 && q == []
        invariant ids != [] ==> |q| == i
        invariant forall k :: 0 <= k < |q| ==> q[k].SampledCall? && q[k] == SampledCall(PropertyQueries(ids), from, to, interval, q[k].sampled)
        invariant forall k :: 0 <= k < |q| ==> q[k].sampled.retry
        invariant i > 0 ==> r == q[i - 1].sampled && (r.batch.Some? <==> r.err.None?)
        invariant i > 0 && r.batch.Some? && iot.WellFormed() ==> WellFormedSampled(r.batch.value)
      {
        r := iot.GetTimeSeriesSampling(ids, from, to, interval);
        if ids != [] {
          q := q + [SampledCall(PropertyQueries(ids), from, to, interval, r)];
        }
        if !r.retry {
          break;
        }
        i := i + 1;
      }
    }

    /** Writes the pieces of one float series in order, stopping at the first failed write. */
    method PushSeriesChunks(alias: string, chunks: seq<Chunk<Double>>) returns (err: Option<Error>, ghost w: seq<Call>)
      requires forall k :: 0 <= k < |chunks| ==> 0 < |chunks[k].ts| == |chunks[k].values|
      modifies sitewise.svc
      ensures sitewise.svc.log == old(sitewise.svc.log) + w
      ensures SendsBatches(w, SeriesChunkBatches(alias, chunks), err)
    {
      ghost var batches := SeriesChunkBatches(alias, chunks);
      w := [];
      for k := 0 to |chunks|
        invariant sitewise.svc.log == old(sitewise.svc.log) + w
        invariant |w| == k && SentInOrder(w, batches)
      {
        var c := chunks[k];
        ghost var before := sitewise.svc.log;
        var erri := sitewise.PopulateTimeSeriesByAlias(alias, c.ts, c.values);
        ghost var call := sitewise.svc.log[|before|];
        assert sitewise.svc.log == before + [call];
        SendNext(w, batches, call);
        AppendAssoc(old(sitewise.svc.log), w, [call]);
        w := w + [call];
        if erri.Some? {
          return erri, w;
        }
      }
      SentAll(w, batches);
      err := None;
    }

    /** Writes the pieces of one sampled series in order, stopping at the first failed write. */
    method PushSampledChunks(alias: string, chunks: seq<Chunk<Sample>>) returns (err: Option<Error>, ghost w: seq<Call>)
      requires forall k :: 0 <= k < |chunks| ==> 0 < |chunks[k].ts| == |chunks[k].values|
      modifies sitewise.svc
      ensures sitewise.svc.log == old(sitewise.svc.log) + w
      ensures SendsBatches(w, SampledChunkBatches(alias, chunks), err)
    {
      ghost var batches := SampledChunkBatches(alias, chunks);
      w := [];
      for k := 0 to |chunks|
        invariant sitewise.svc.log == old(sitewise.svc.log) + w
        invariant |w| == k && SentInOrder(w, batches)
      {
        var c := chunks[k];
        ghost var before := sitewise.svc.log;
        var erri := sitewise.PopulateSampledSamplesTimeSeriesByAlias(alias, c.ts, c.values);
        ghost var call := sitewise.svc.log[|before|];
        assert sitewise.svc.log == before + [call];
        SendNext(w, batches, call);
        AppendAssoc(old(sitewise.svc.log), w, [call]);
        w := w + [call];
        if erri.Some? {
          return erri, w;
        }
      }
      SentAll(w, batches);
      err := None;
    }

    /** One response: skipped when it holds no values, is not to be imported or has no alias; otherwise its pieces are written in order. */
    method PushSeriesResponse(r: SeriesResponse, ids: seq<string>, aliases: map<string, string>) returns (err: Option<Error>, ghost w: seq<Call>)
      requires |r.times| <= |r.values|
      modifies sitewise.svc
      ensures sitewise.svc.log == old(sitewise.svc.log) + w
      ensures SendsBatches(w, SeriesResponseBatches(r, ids, aliases), err)
    {
      if r.countValues == 0 {
        return None, [];
      }
      var id := ResponseId(r.query);
      if id !in ids {
        return None, [];
      }
      var alias := if id in aliases then aliases[id] else "";
      if alias == "" {
        return None, [];
      }
      var chunks := PartitionResults(r);
      err, w := PushSeriesChunks(alias, chunks);
    }

    /** The response loop of populateTSDataIntoSiteWise: skip, or write every piece, stopping at the first failed write. */
    method PushSeries(responses: seq<SeriesResponse>, ids: seq<string>, aliases: map<string, string>)
      returns (err: Option<Error>, ghost w: seq<Call>)
      requires WellFormedSeries(responses)
      modifies sitewise.svc
      ensures sitewise.svc.log == old(sitewise.svc.log) + w
      ensures SendsBatches(w, SeriesBatches(responses, ids, aliases), err)
    {
      w := [];
      for i := 0 to |responses|
        invariant sitewise.svc.log == old(sitewise.svc.log) + w
        invariant WellFormedSeries(responses[..i])
        invariant SendsBatches(w, SeriesBatches(responses[..i], ids, aliases), None)
      {
        SeriesBatchesStep(responses, i, ids, aliases);
        ghost var done := SeriesBatches(responses[..i], ids, aliases);
        var e, v := PushSeriesResponse(responses[i], ids, aliases);
        SendsBatchesAppend(w, done, v, SeriesResponseBatches(responses[i], ids, aliases), e);
        AppendAssoc(old(sitewise.svc.log), w, v);
        w := w + v;
        if e.Some? {
          var rest := SeriesBatchesPrefix(responses, i + 1, ids, aliases);
          SendsBatchesFailed(w, SeriesBatches(responses[..i + 1], ids, aliases), rest, e.value);
          return e, w;
        }
      }
      assert responses[..|responses|] == responses;
      err := None;
    }

    /** One response: skipped when it holds no values, is not to be imported or has no alias; otherwise its pieces are written in order. */
    method PushSampledResponse(r: SampledResponse, ids: seq<string>, aliases: map<string, string>) returns (err: Option<Error>, ghost w: seq<Call>)
      requires |r.times| <= |r.values|
      modifies sitewise.svc
      ensures sitewise.svc.log == old(sitewise.svc.log) + w
      ensures SendsBatches(w, SampledResponseBatches(r, ids, aliases), err)
    {
      if r.countValues == 0 {
        return None, [];
      }
      var id := ResponseId(r.query);
      if id !in ids {
        return None, [];
      }
      var alias := if id in aliases then aliases[id] else "";
      if alias == "" {
        return None, [];
      }
      var chunks := PartitionSampledResults(r);
      err, w := PushSampledChunks(alias, chunks);
    }

    /** The response loop of populateCharTSDataIntoSiteWise, the same way. */
    method PushSampled(responses: seq<SampledResponse>, ids: seq<string>, aliases: map<string, string>)
      returns (err: Option<Error>, ghost w: seq<Call>)
      requires WellFormedSampled(responses)
      modifies sitewise.svc
      ensures sitewise.svc.log == old(sitewise.svc.log) + w
      ensures SendsBatches(w, SampledBatches(responses, ids, aliases), err)
    {
      w := [];
      for i := 0 to |responses|
        invariant sitewise.svc.log == old(sitewise.svc.log) + w
        invariant WellFormedSampled(responses[..i])
        invariant SendsBatches(w, SampledBatches(responses[..i], ids, aliases), None)
      {
        SampledBatchesStep(responses, i, ids, aliases);
        ghost var done := SampledBatches(responses[..i], ids, aliases);
        var e, v := PushSampledResponse(responses[i], ids, aliases);
        SendsBatchesAppend(w, done, v, SampledResponseBatches(responses[i], ids, aliases), e);
        AppendAssoc(old(sitewise.svc.log), w, v);
        w := w + v;
        if e.Some? {
          var rest := SampledBatchesPrefix(responses, i + 1, ids, aliases);
          SendsBatchesFailed(w, SampledBatches(responses[..i + 1], ids, aliases), rest, e.value);
          return e, w;
        }
      }
      assert responses[..|responses|] == responses;
      err := None;
    }
  
    /**
     * populateTSDataIntoSiteWise, with a failed write reported: the retried
     * fetch of the thing's aggregated series, then the writes of every
     * response that is not skipped.
     */
    method PopulateTSData(thingId: string, ids: seq<string>, aliases: map<string, string>, resolution: Int64, window: Window)
      returns (err: Option<Error>, ghost q: seq<Query>, ghost w: seq<Call>)
      requires iot.WellFormed()
      modifies iot, sitewise.svc
      ensures iot.log == old(iot.log) + q && sitewise.svc.log == old(sitewise.svc.log) + w
      ensures SeriesExport(q, w, err, thingId, ids, aliases, resolution, window)
      ensures WritesOnly(w)
    {
      var fetched;
      fetched, q := FetchSeries(thingId, window.from, window.to, resolution);
      if fetched.err.Some? {
        return fetched.err, q, [];
      }
      err, w := PushSeries(fetched.batch.value, ids, aliases);
    }

    /** populateTSDataIntoSiteWise as written: after a failed write it returns the fetch error, which is nil there. */
    method PopulateTSDataAsWritten(thingId: string, ids: seq<string>, aliases: map<string, string>, resolution: Int64, window: Window)
      returns (err: Option<Error>, ghost pushErr: Option<Error>, ghost q: seq<Query>, ghost w: seq<Call>)
      requires iot.WellFormed()
      modifies iot, sitewise.svc
      ensures iot.log == old(iot.log) + q && sitewise.svc.log == old(sitewise.svc.log) + w
      ensures SeriesExport(q, w, pushErr, thingId, ids, aliases, resolution, window)
      ensures err == SeriesFetched(q).err
    {
      var fetched;
      fetched, q := FetchSeries(thingId, window.from, window.to, resolution);
      if fetched.err.Some? {
        return fetched.err, fetched.err, q, [];
      }
      pushErr, w := PushSeries(fetched.batch.value, ids, aliases);
      err := fetched.err;
    }

    /** populateCharTSDataIntoSiteWise, with a failed write reported. */
    method PopulateCharTSData(ids: seq<string>, aliases: map<string, string>, resolution: Int64, window: Window)
      returns (err: Option<Error>, ghost q: seq<Query>, ghost w: seq<Call>)
      requires iot.WellFormed()
      modifies iot, sitewise.svc
      ensures iot.log == old(iot.log) + q && sitewise.svc.log == old(sitewise.svc.log) + w
      ensures SampledExport(q, w, err, ids, aliases, resolution, window)
      ensures WritesOnly(w)
    {
      var fetched;
      fetched, q := FetchSampled(ids, window.from, window.to, ToInt32(resolution));
      if fetched.err.Some? {
        return fetched.err, q, [];
      }
      err, w := PushSampled(fetched.batch.value, ids, aliases);
    }

    /** populateCharTSDataIntoSiteWise as written: after a failed write it returns the nil fetch error. */
    method PopulateCharTSDataAsWritten(ids: seq<string>, aliases: map<string, string>, resolution: Int64, window: Window)
      returns (err: Option<Error>, ghost pushErr: Option<Error>, ghost q: seq<Query>, ghost w: seq<Call>)
      requires iot.WellFormed()
      modifies iot, sitewise.svc
      ensures iot.log == old(iot.log) + q && sitewise.svc.log == old(sitewise.svc.log) + w
      ensures SampledExport(q, w, pushErr, ids, aliases, resolution, window)
      ensures err == SampledFetched(q).err
    {
      var fetched;
      fetched, q := FetchSampled(ids, window.from, window.to, ToInt32(resolution));
      if fetched.err.Some? {
        return fetched.err, fetched.err, q, [];
      }
      pushErr, w := PushSampled(fetched.batch.value, ids, aliases);
      err := fetched.err;
    }
  
    /**
     * The exports of one asset's mapped properties: the numeric export of the
     * primary ids when there are any, then, unless it failed, the string
     * export of the string ids when there are any. The numeric export makes
     * the queries q1 and the writes w1 and ends with e1; the string export
     * makes q2 and w2.
     */
    method ExportProperties(thingId: string, primary: seq<string>, chars: seq<string>, aliases: map<string, string>,
                            resolution: Int64, window: Window)
      returns (err: Option<Error>, ghost q1: seq<Query>, ghost w1: seq<Call>, ghost e1: Option<Error>,
               ghost q2: seq<Query>, ghost w2: seq<Call>)
      requires iot.WellFormed()
      modifies iot, sitewise.svc
      ensures iot.log == old(iot.log) + q1 + q2 && sitewise.svc.log == old(sitewise.svc.log) + w1 + w2
      ensures WritesOnly(w1 + w2)
      ensures primary == [] ==> q1 == [] && w1 == [] && e1 == None
      ensures primary != [] ==> SeriesExport(q1, w1, e1, thingId, primary, aliases, resolution, window)
      ensures e1.Some? || chars == [] ==> err == e1 && q2 == [] && w2 == []
      ensures e1.None? && chars != [] ==> SampledExport(q2, w2, err, chars, aliases, resolution, window)
      ensures primary == [] && chars == [] ==> q1 + q2 == [] && w1 + w2 == [] && err.None?
    {
      var e: Option<Error> := None;
      q1, w1 := [], [];
      if |primary| > 0 {
        e, q1, w1 := PopulateTSData(thingId, primary, aliases, resolution, window);
      }
      e1 := e;
      if e.Some? || |chars| == 0 {
        assert w1 + [] == w1;
        return e, q1, w1, e1, [], [];
      }
      err, q2, w2 := PopulateCharTSData(chars, aliases, resolution, window);
      WritesOnlyAppend(w1, w2);
    }

    /**
     * The per-asset task of AlignTimeSeriesSamplesIntoSiteWise: describe the
     * asset (a failure is only logged), map its properties to the thing's,
     * and export them.
     */
    method ExportAsset(assetId: string, thingId: string, thing: Thing, resolution: Int64, window: Window)
      returns (err: Option<Error>, ghost q: seq<Query>, ghost w: seq<Call>)
      requires iot.WellFormed()
      modifies iot, sitewise.svc
      ensures iot.log == old(iot.log) + q && sitewise.svc.log == old(sitewise.svc.log) + w
      ensures w != [] && w[0].DescribeAssetCall? && w[0].assetId == assetId
      ensures WritesOnly(w[1..])
      ensures w[0].asset.Err? ==> |w| == 1 && q == [] && err == Some(w[0].asset.error)
      ensures w[0].asset.Ok? ==>
        var (primary, chars, aliases) := PlanImport(w[0].asset.value.properties, thing, catalog);
        primary == [] && chars == [] ==> |w| == 1 && q == [] && err.None?
    {
      var described := sitewise.svc.DescribeAsset(assetId);
      w := [DescribeAssetCall(assetId, described)];
      if described.Err? {
        return Some(described.error), [], w;
      }
      ghost var v;
      err, q, v := ExportDescribed(described.value, thingId, thing, resolution, window);
      assert (w + v)[1..] == v;
      w := w + v;
    }

    /** The part of the per-asset task after a successful description: map the properties, then export them. */
    method ExportDescribed(asset: Asset, thingId: string, thing: Thing, resolution: Int64, window: Window)
      returns (err: Option<Error>, ghost q: seq<Query>, ghost w: seq<Call>)
      requires iot.WellFormed()
      modifies iot, sitewise.svc
      ensures iot.log == old(iot.log) + q && sitewise.svc.log == old(sitewise.svc.log) + w
      ensures WritesOnly(w)
      ensures PlanImport(asset.properties, thing, catalog).0 == [] && PlanImport(asset.properties, thing, catalog).1 == [] ==>
        w == [] && q == [] && err.None?
    {
      var primary, chars, aliases := MapPropertiesToImport(asset.properties, thing, catalog);
      ghost var q1, w1, e1, q2, w2;
      err, q1, w1, e1, q2, w2 := ExportProperties(thingId, primary, chars, aliases, resolution, window);
      AppendAssoc(old(iot.log), q1, q2);
      AppendAssoc(old(sitewise.svc.log), w1, w2);
      q, w := q1 + q2, w1 + w2;
    }

    /** The asset loop over one listed page: skip assets without an external id or without a known thing, export the rest. */
    method ExportPage(items: seq<AssetSummary>, things: map<string, Thing>, resolution: Int64, window: Window)
      returns (ghost q: seq<Query>, ghost w: seq<Call>)
      requires iot.WellFormed()
      modifies iot, sitewise.svc
      ensures iot.log == old(iot.log) + q && sitewise.svc.log == old(sitewise.svc.log) + w
      ensures ExportCalls(w)
      ensures DescribedAssetIds(w) == ExportIds(items, things)
    {
      q, w := [], [];
      for j := 0 to |items|
        invariant iot.log == old(iot.log) + q && sitewise.svc.log == old(sitewise.svc.log) + w
        invariant ExportCalls(w)
        invariant DescribedAssetIds(w) == ExportIds(items[..j], things)
      {
        var s := items[j];
        assert items[..j + 1][..j] == items[..j];
        if s.externalId.None? || s.externalId.value !in things {
          assert ExportIds(items[..j + 1], things) == ExportIds(items[..j], things) + [];
          continue;
        }
        var thing := things[s.externalId.value];
        var err, u, v := ExportAsset(s.id, s.externalId.value, thing, resolution, window);
        assert DescribedAssetIds(v) == [s.id] by {
          assert forall k :: 0 <= k < |v[1..]| ==> v[1..][k].BatchPutCall?;
          DescribedAssetIdsOfWrites(v[1..]);
          assert v == [v[0]] + v[1..];
          DescribedAssetIdsAppend([v[0]], v[1..]);
          assert DescribedAssetIds([v[0]]) == DescribedAssetIds([]) + [s.id];
        }
        DescribedAssetIdsAppend(w, v);
        ExportCallsAppend(w, v);
        AppendAssoc(old(iot.log), q, u);
        AppendAssoc(old(sitewise.svc.log), w, v);
        q, w := q + u, w + v;
      }
      assert items[..|items|] == items;
    }

    /** The paging loop over one model's assets; a failed listing ends the pass with its error. */
    method ExportModelAssets(modelId: string, things: map<string, Thing>, resolution: Int64, window: Window)
      returns (err: Option<Error>, ghost q: seq<Query>, ghost w: seq<Call>)
      requires iot.WellFormed()
      modifies iot, sitewise.svc
      ensures iot.log == old(iot.log) + q && sitewise.svc.log == old(sitewise.svc.log) + w
      ensures ExportCalls(w)
      ensures err.None? ==> DescribedAssetIds(w) == ExportIds(Flatten(sitewise.svc.assetPages(modelId)), things)
      ensures err.Some? ==> w != [] && w[|w| - 1].ListAssetsCall? && CallError(w[|w| - 1]) == err
    {
      ghost var pages := sitewise.svc.assetPages(modelId);
      q, w := [], [];
      var token: Option<nat> := None;
      var next := true;
      while next
        invariant iot.log == old(iot.log) + q && sitewise.svc.log == old(sitewise.svc.log) + w
        invariant pages == sitewise.svc.assetPages(modelId)
        invariant PageIndex(token) <= |pages|
        invariant ExportCalls(w)
        invariant next ==> DescribedAssetIds(w) == ExportIds(Flatten(pages[..PageIndex(token)]), things)
        invariant !next ==> DescribedAssetIds(w) == ExportIds(Flatten(pages), things)
        decreases (if next then 1 else 0) + |pages| - PageIndex(token)
      {
        var listed := sitewise.svc.ListAssets(modelId, token);
        ghost var c := ListAssetsCall(modelId, token, listed);
        AppendAssoc(old(sitewise.svc.log), w, [c]);
        if listed.Err? {
          ExportCallsAppend(w, [c]);
          return Some(listed.error), q, w + [c];
        }
        var page := listed.value;
        var u, v := ExportPage(page.items, things, resolution, window);
        ExportPageStep(w, c, v, pages, token, things);
        AppendAssoc(old(iot.log), q, u);
        AppendAssoc(old(sitewise.svc.log), w + [c], v);
        q, w := q + u, w + [c] + v;
        if page.next.None? {
          next := false;
        } else {
          token := page.next;
        }
      }
      err := None;
    }

    /**
     * AlignTimeSeriesSamplesIntoSiteWise, one task at a time: compute the
     * export window, read the first page of models only, and export the
     * assets of each listed model. Only a failed listing is returned; the
     * errors of the per-asset tasks are only logged.
     */
    method AlignTimeSeriesSamples(windowMinutes: int, things: map<string, Thing>, resolution: Int64, now: int)
      returns (err: Option<Error>, ghost q: seq<Query>, ghost w: seq<Call>)
      requires iot.WellFormed()
      modifies iot, sitewise.svc
      ensures iot.log == old(iot.log) + q && sitewise.svc.log == old(sitewise.svc.log) + w
      ensures w != [] && w[0].ListAssetModelsCall? && w[0].token == None
      ensures ExportCalls(w[1..])
      ensures w[0].listedModels.Err? ==> |w| == 1 && q == [] && err == Some(w[0].listedModels.error)
      ensures w[0].listedModels.Ok? && err.None? ==>
        DescribedAssetIds(w) == ModelsExportIds(sitewise.svc.assetPages, w[0].listedModels.value.items, things)
      ensures err.Some? ==> CallError(w[|w| - 1]) == err
    {
      var window := ComputeTimeAlignment(resolution, windowMinutes, now);
      var listed := sitewise.svc.ListAssetModels(None);
      w, q := [ListAssetModelsCall(None, listed)], [];
      if listed.Err? {
        return Some(listed.error), q, w;
      }
      var models := listed.value.items;
      ghost var rest: seq<Call> := [];
      assert DescribedAssetIds(w) == [] by {
        DescribedAssetIdsOfWrites(w);
      }
      for i := 0 to |models|
        invariant iot.log == old(iot.log) + q && sitewise.svc.log == old(sitewise.svc.log) + w
        invariant w == [ListAssetModelsCall(None, listed)] + rest && ExportCalls(rest)
        invariant DescribedAssetIds(w) == ModelsExportIds(sitewise.svc.assetPages, models[..i], things)
      {
        var e, u, v := ExportModelAssets(models[i].id, things, resolution, window);
        assert models[..i + 1][..i] == models[..i];
        DescribedAssetIdsAppend(w, v);
        ExportCallsAppend(rest, v);
        AppendAssoc([ListAssetModelsCall(None, listed)], rest, v);
        AppendAssoc(old(iot.log), q, u);
        AppendAssoc(old(sitewise.svc.log), w, v);
        q, w, rest := q + u, w + v, rest + v;
        if e.Some? {
          return e, q, w;
        }
      }
      assert models[..|models|] == models;
      err := None;
    }
  }
}
