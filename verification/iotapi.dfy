/**
 * The Arduino IoT Cloud as the integration sees it: things, their
 * properties, the property-type catalogue, and the two series queries,
 * behind an opaque recorder whose replies come from oracles indexed by the
 * call's position in the log.
 */
module IotApi {
  import opened Wrappers
  import opened Errors
  import opened Samples

  datatype ThingProperty = ThingProperty(id: string, name: string, ptype: string)
  datatype Thing = Thing(id: string, name: string, properties: seq<ThingProperty>)

  /** An entry of the property-type catalogue: display name, type code and units. */
  datatype PropertyTypeInfo = PropertyTypeInfo(name: string, ptype: string, units: seq<string>)

  /**
   * The type codes the IoT library classifies as number, boolean, string and
   * location types (the classifiers themselves are not part of this model).
   */
  datatype TypeCatalog = TypeCatalog(
    numberTypes: set<string>,
    boolTypes: set<string>,
    stringTypes: set<string>,
    locationTypes: set<string>)

  /** The aggregated series of one property: Unix times, values and a value count. */
  datatype SeriesResponse = SeriesResponse(query: string, times: seq<Int64>, values: seq<Double>, countValues: int)

  /** The sampled series of one property, whose values may be of any kind. */
  datatype SampledResponse = SampledResponse(query: string, times: seq<Int64>, values: seq<Sample>, countValues: int)

  /** How the HTTP exchange of a query ends. */
  datatype Status = Served | RateLimited | Rejected(message: string)

  /** The (batch, retry, error) triple a query returns. */
  datatype Fetch<T> = Fetch(batch: Option<seq<T>>, retry: bool, err: Option<Error>)

  datatype Query =
    | SeriesCall(thingId: string, from: int, to: int, interval: int, series: Fetch<SeriesResponse>)
    | SampledCall(queries: seq<string>, sfrom: int, sto: int, sinterval: int, sampled: Fetch<SampledResponse>)

  const RetrievalError := "retrieving time series"

  /** The triple a query returns once the exchange has ended with status s. */
  function Outcome<T>(s: Status, data: seq<T>): (f: Fetch<T>)
    ensures f.retry <==> s.RateLimited?
    ensures f.batch.Some? <==> f.err.None?
    ensures f.batch.Some? ==> f.batch.value == data
  {
    match s
    case Served => Fetch(Some(data), false, None)
    case RateLimited => Fetch(None, true, Some(Failure(RetrievalError)))
    case Rejected(m) => Fetch(None, false, Some(Failure(RetrievalError + ": " + m)))
  }

  /** The "property.<id>" query of each property id, in order. */
  function PropertyQueries(ids: seq<string>): (qs: seq<string>)
    ensures |qs| == |ids|
    ensures forall i :: 0 <= i < |ids| ==> qs[i] == "property." + ids[i]
  {
    if ids == [] then [] else ["property." + ids[0]] + PropertyQueries(ids[1..])
  }

  class IotClient {
    /** Every HTTP query made so far, with its reply. */
    var log: seq<Query>
    const status: nat -> Status
    const seriesData: nat -> seq<SeriesResponse>
    const sampledData: nat -> seq<SampledResponse>

    constructor (status: nat -> Status, seriesData: nat -> seq<SeriesResponse>, sampledData: nat -> seq<SampledResponse>)
      ensures log == []
      ensures this.status == status && this.seriesData == seriesData && this.sampledData == sampledData
    {
      log := [];
      this.status := status;
      this.seriesData := seriesData;
      this.sampledData := sampledData;
    }

    /**
     * Every reply pairs each time with a value. The integration slices the
     * values by the times' positions and would stop with a runtime panic on a
     * reply with fewer values than times.
     */
    ghost predicate WellFormed()
    {
      && (forall n: nat, x :: x in seriesData(n) ==> |x.times| <= |x.values|)
      && (forall n: nat, x :: x in sampledData(n) ==> |x.times| <= |x.values|)
    }

    /** Aggregated series of every property of a thing; an empty id fails before any query and is not retried. */
    method GetTimeSeriesByThing(thingId: string, from: int, to: int, interval: int) returns (r: Fetch<SeriesResponse>)
      modifies this
      ensures thingId == "" ==> r == Fetch(None, false, Some(Failure("no thing provided"))) && log == old(log)
      ensures thingId != "" ==> r == old(Outcome(status(|log|), seriesData(|log|)))
      ensures thingId != "" ==> log == old(log) + [SeriesCall(thingId, from, to, interval, r)]
    {
      if thingId == "" {
        return Fetch(None, false, Some(Failure("no thing provided")));
      }
      r := Outcome(status(|log|), seriesData(|log|));
      log := log + [SeriesCall(thingId, from, to, interval, r)];
    }

    /** Sampled series of the given properties; an empty list fails before any query and is not retried. */
    method GetTimeSeriesSampling(propertyIds: seq<string>, from: int, to: int, interval: int) returns (r: Fetch<SampledResponse>)
      modifies this
      ensures propertyIds == [] ==> r == Fetch(None, false, Some(Failure("no valid properties provided"))) && log == old(log)
      ensures propertyIds != [] ==> r == old(Outcome(status(|log|), sampledData(|log|)))
      ensures propertyIds != [] ==> log == old(log) + [SampledCall(PropertyQueries(propertyIds), from, to, interval, r)]
    {
      if propertyIds == [] {
        return Fetch(None, false, Some(Failure("no valid properties provided")));
      }
      r := Outcome(status(|log|), sampledData(|log|));
      log := log + [SampledCall(PropertyQueries(propertyIds), from, to, interval, r)];
    }
  }
}
