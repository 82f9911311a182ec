/**
 * The Lambda entry point of the integration: it reads its settings from
 * the parameter store, derives the sample resolution, the extraction
 * window and whether the entity models need aligning, runs the import, and
 * after a clean run that aligned entities records the time of that
 * alignment. The import itself (client construction and the alignment and
 * export passes behind it) is a pair of given functions here.
 */
module Lambda {
  import opened Wrappers
  import opened Errors
  import opened Samples
  import opened GoStrings
  import opened Parameters
  import opened Collections

  const ArduinoRoot: string := "/arduino/sitewise-importer/"
  const ArduinoPrefix: string := ArduinoRoot + StackName
  const IoTApiKey: string := ArduinoPrefix + "/iot/api-key"
  const IoTApiSecret: string := ArduinoPrefix + "/iot/api-secret"
  const IoTApiOrgId: string := ArduinoPrefix + "/iot/org-id"
  const IoTApiTags: string := ArduinoPrefix + "/iot/filter/tags"
  const SamplesReso: string := ArduinoPrefix + "/iot/samples-resolution"
  const Scheduling: string := ArduinoPrefix + "/iot/scheduling"
  const LastModelSync: string := ArduinoPrefix + "/iot/last-model-sync"

  const SamplesResolutionSeconds: int := 300
  const DefaultTimeExtractionWindowMinutes: int := 30
  /** Entities are not aligned again within 55 minutes of the last alignment. */
  const EntitySyncIntervalSeconds: int := 55 * 60

  const SuccessMessage: string := "Data aligned and imported successfully"

  /** The parameters in the order a run reads them. */
  const ReadOrder: seq<string> := [IoTApiKey, IoTApiSecret, IoTApiOrgId, IoTApiTags, SamplesReso, Scheduling, LastModelSync]

  /** Every parameter of the integration lives under the stack's own prefix. */
  lemma ResolveArduinoName(suffix: string, stack: string)
    requires '<' !in suffix
    ensures ResolveParameter(ArduinoPrefix + suffix, stack) == ArduinoRoot + stack + suffix
  {
    ResolveSingle(ArduinoRoot, suffix, stack);
  }

  /** The names a run reads resolve to the prefix, the stack name and the setting's own path. */
  lemma ResolvedReadOrder(stack: string)
    ensures ResolveParameter(IoTApiKey, stack) == ArduinoRoot + stack + "/iot/api-key"
    ensures ResolveParameter(LastModelSync, stack) == ArduinoRoot + stack + "/iot/last-model-sync"
    ensures ResolveParameter(SamplesReso, stack) == ArduinoRoot + stack + "/iot/samples-resolution"
  {
    ResolveArduinoName("/iot/api-key", stack);
    ResolveArduinoName("/iot/last-model-sync", stack);
    ResolveArduinoName("/iot/samples-resolution", stack);
  }

  // ---------------------------------------------------------------------------
  // Settings derived from labels
  // ---------------------------------------------------------------------------

  /** The sample resolution in seconds for a resolution label; 300 for any unknown label. */
  function ResolutionFromLabel(text: string): (seconds: int)
    ensures seconds == 60 || seconds == 300 || seconds == 900 || seconds == 3600
    ensures seconds == 60 <==> text == "1 minute"
    ensures seconds == 900 <==> text == "15 minutes"
    ensures seconds == 3600 <==> text == "1 hour"
  {
    match text
    case "1 minute" => 60
    case "5 minutes" => 300
    case "15 minutes" => 900
    case "1 hour" => 3600
    case _ => SamplesResolutionSeconds
  }

  /** The range check on the resolution: an error outside 60..3600 seconds. */
  function ResolutionCheck(seconds: int): (err: Option<Error>)
    ensures err.None? <==> 60 <= seconds <= 3600
  {
    if seconds > 3600 then Some(Failure("resolution must be between 60 and 3600"))
    else if seconds < 60 || seconds > 3600 then Some(Failure("resolution must be between 60 and 3600"))
    else None
  }

  /** A resolution derived from any label passes the range check, which therefore never rejects. */
  lemma LabelledResolutionAccepted(text: string)
    ensures ResolutionCheck(ResolutionFromLabel(text)).None?
  {
  }

  /** The extraction window in minutes for a scheduling label; 30 for any unknown label. */
  function WindowFromLabel(text: string): (minutes: int)
    ensures minutes == 5 || minutes == 15 || minutes == 30 || minutes == 60
    ensures minutes == 5 <==> text == "5 minutes"
    ensures minutes == 15 <==> text == "15 minutes"
    ensures minutes == 60 <==> text == "1 hour"
  {
    match text
    case "5 minutes" => 5
    case "15 minutes" => 15
    case "1 hour" => 60
    case _ => DefaultTimeExtractionWindowMinutes
  }

  /** Go's int64 arithmetic: the two's-complement wrap of an exact result. */
  function WrapInt64(v: int): (r: Int64)
    ensures MinInt64 <= v <= MaxInt64 ==> r == v
    ensures (r - v) % 0x1_0000_0000_0000_0000 == 0
  {
    var m := v % 0x1_0000_0000_0000_0000;
    if m <= MaxInt64 then m else m - 0x1_0000_0000_0000_0000
  }

  /**
   * Whether a run aligns entities: it does unless the stored time of the
   * last alignment reads as an int64 less than 55 minutes before now
   * (the difference taken in int64 arithmetic).
   */
  function ShouldAlignEntities(lastSync: Option<string>, now: Int64): (align: bool)
    ensures lastSync.None? || ParseInt64(lastSync.value).None? ==> align
    ensures lastSync.Some? && ParseInt64(lastSync.value).Some? ==>
      var elapsed := now - ParseInt64(lastSync.value).value;
      MinInt64 <= elapsed <= MaxInt64 ==> (align <==> elapsed >= EntitySyncIntervalSeconds)
  {
    match lastSync
    case None => true
    case Some(text) =>
      match ParseInt64(text)
      case None => true
      case Some(last) => !(WrapInt64(now - last) < EntitySyncIntervalSeconds)
  }

  /**
   * The time a run records is read back by a later run as intended: that run
   * aligns entities again exactly when 55 minutes or more have passed.
   */
  lemma AlignAfterRecordedSync(synced: Int64, now: Int64)
    requires 0 <= synced <= now
    ensures ShouldAlignEntities(Some(Itoa(synced)), now) <==> now - synced >= EntitySyncIntervalSeconds
  {
    ParseInt64OfItoa(synced);
  }

  // ---------------------------------------------------------------------------
  // The run
  // ---------------------------------------------------------------------------

  /** Reads the scheduling label; a failed read is returned as the error, with window -1. */
  method ConfigureDataExtractionTimeWindow(params: ParametersClient, stack: string) returns (minutes: int, err: Option<Error>)
    modifies params.store
    ensures params.store.params == old(params.store.params)
    ensures params.store.log == old(params.store.log) + [GetParameterCall(ResolveParameter(Scheduling, stack), old(params.store.NextGet(ResolveParameter(Scheduling, stack))))]
    ensures var got := old(params.store.NextGet(ResolveParameter(Scheduling, stack)));
      && (err.Some? <==> got.Err?)
      && (got.Err? ==> err == Some(got.error) && minutes == -1)
      && (got.Ok? ==> minutes == WindowFromLabel(Normalise(Some(got.value))))
  {
    var schedule := params.ReadConfig(Scheduling, stack);
    if schedule.Err? {
      return -1, Some(schedule.error);
    }
    minutes := WindowFromLabel(schedule.value);
    err := None;
  }

  /** What a run hands to the import. */
  datatype Settings = Settings(
    key: string,
    secret: string,
    organizationId: string,
    tags: Option<string>,
    resolution: int,
    windowMinutes: int,
    alignEntities: bool)

  /** The text a logged read handed back; empty for a failed read. */
  function Text(c: StoreCall): (text: string)
    ensures ReadValue(c).Some? ==> text == ReadValue(c).value
    ensures ReadValue(c).None? ==> text == ""
  {
    if ReadValue(c).Some? then ReadValue(c).value else ""
  }

  /** The reads are those of the integration's parameters, in order, starting with the `from`-th. */
  ghost predicate ReadsInOrder(w: seq<StoreCall>, stack: string, from: nat)
  {
    forall k :: 0 <= k < |w| && from + k < |ReadOrder| ==>
      w[k].GetParameterCall? && w[k].name == ResolveParameter(ReadOrder[from + k], stack)
  }

  /** The settings the seven reads of a run give. */
  function SettingsOf(w: seq<StoreCall>, now: Int64): (s: Settings)
    requires |w| >= 7
    ensures s.resolution == 60 || s.resolution == 300 || s.resolution == 900 || s.resolution == 3600
  {
    Settings(
      Text(w[0]), Text(w[1]), Text(w[2]), ReadValue(w[3]),
      ResolutionFromLabel(Text(w[4])), WindowFromLabel(Text(w[5])),
      ShouldAlignEntities(ReadValue(w[6]), now))
  }

  /** The first three reads of HandleRequest: api key, api secret and organization id. */
  method ReadCredentials(params: ParametersClient, stack: string)
    returns (key: Option<string>, secret: Option<string>, organizationId: string, ghost w: seq<StoreCall>)
    modifies params.store
    ensures params.store.params == old(params.store.params)
    ensures params.store.log == old(params.store.log) + w
    ensures |w| == 3 && ReadsInOrder(w, stack, 0)
    ensures key == ReadValue(w[0]) && secret == ReadValue(w[1]) && organizationId == Text(w[2])
  {
    ghost var start := params.store.log;
    ghost var c0 := GetParameterCall(ResolveParameter(IoTApiKey, stack), params.store.NextGet(ResolveParameter(IoTApiKey, stack)));
    var apiKey := params.ReadConfig(IoTApiKey, stack);
    ghost var c1 := GetParameterCall(ResolveParameter(IoTApiSecret, stack), params.store.NextGet(ResolveParameter(IoTApiSecret, stack)));
    var apiSecret := params.ReadConfig(IoTApiSecret, stack);
    ghost var c2 := GetParameterCall(ResolveParameter(IoTApiOrgId, stack), params.store.NextGet(ResolveParameter(IoTApiOrgId, stack)));
    var orgId := params.ReadConfig(IoTApiOrgId, stack);
    w := [c0, c1, c2];
    assert params.store.log == start + [c0] + [c1] + [c2];
    key := if apiKey.Ok? then Some(apiKey.value) else None;
    secret := if apiSecret.Ok? then Some(apiSecret.value) else None;
    organizationId := if orgId.Ok? then orgId.value else "";
  }

  /**
   * The reads of HandleRequest after the credentials: the tag filter, the
   * resolution label, the scheduling label and the time of the last
   * alignment; an unreadable resolution or schedule ends the reads with
   * that read's error.
   */
  method ReadOptions(params: ParametersClient, stack: string, now: Int64)
    returns (r: Result<(Option<string>, int, int, bool), Error>, ghost w: seq<StoreCall>)
    modifies params.store
    ensures params.store.params == old(params.store.params)
    ensures params.store.log == old(params.store.log) + w
    ensures 2 <= |w| <= 4 && OptionReads(w, stack)
    ensures |w| == 2 ==> w[1].got.Err? && r == Err(w[1].got.error)
    ensures |w| == 3 ==> w[1].got.Ok? && w[2].got.Err? && r == Err(w[2].got.error)
    ensures r.Ok? <==> |w| == 4
    ensures |w| == 4 ==> w[1].got.Ok? && w[2].got.Ok? && r.value == (
      ReadValue(w[0]), ResolutionFromLabel(Text(w[1])), WindowFromLabel(Text(w[2])), ShouldAlignEntities(ReadValue(w[3]), now))
  {
    ghost var start := params.store.log;
    ghost var c3 := GetParameterCall(ResolveParameter(IoTApiTags, stack), params.store.NextGet(ResolveParameter(IoTApiTags, stack)));
    var tagsParam := params.ReadConfig(IoTApiTags, stack);
    var tags := if tagsParam.Ok? then Some(tagsParam.value) else None;
    ghost var c4 := GetParameterCall(ResolveParameter(SamplesReso, stack), params.store.NextGet(ResolveParameter(SamplesReso, stack)));
    var res := params.ReadConfig(SamplesReso, stack);
    w := [c3, c4];
    assert params.store.log == start + w;
    if res.Err? {
      return Err(res.error), w;
    }
    var resolution := ResolutionFromLabel(res.value);
    ghost var c5 := GetParameterCall(ResolveParameter(Scheduling, stack), params.store.NextGet(ResolveParameter(Scheduling, stack)));
    var windowMinutes, err := ConfigureDataExtractionTimeWindow(params, stack);
    w := [c3, c4, c5];
    assert params.store.log == start + w;
    if err.Some? {
      return Err(err.value), w;
    }
    ghost var c6 := GetParameterCall(ResolveParameter(LastModelSync, stack), params.store.NextGet(ResolveParameter(LastModelSync, stack)));
    var lastSync := params.ReadConfig(LastModelSync, stack);
    w := [c3, c4, c5, c6];
    assert params.store.log == start + w;
    var alignEntities := ShouldAlignEntities(if lastSync.Ok? then Some(lastSync.value) else None, now);
    r := Ok((tags, resolution, windowMinutes, alignEntities));
  }

  /**
   * The reads at the start of HandleRequest: the credentials, then (with
   * key and secret present) the remaining settings.
   */
  method ReadSettings(params: ParametersClient, stack: string, now: Int64)
    returns (r: Result<Settings, Error>, ghost w: seq<StoreCall>)
    modifies params.store
    ensures params.store.params == old(params.store.params)
    ensures params.store.log == old(params.store.log) + w
    ensures 3 <= |w| <= 7 && |w| != 4 && ReadsInOrder(w, stack, 0)
    // a missing key or secret stops the run before anything is imported
    ensures ReadValue(w[0]).None? || ReadValue(w[1]).None? <==> |w| == 3
    ensures |w| == 3 ==> r == Err(Failure("key and secret are required"))
    // an unreadable resolution or schedule stops the run with the read's error
    ensures |w| == 5 ==> w[4].got.Err? && r == Err(w[4].got.error)
    ensures |w| == 6 ==> w[5].got.Err? && r == Err(w[5].got.error)
    ensures |w| > 5 ==> w[4].got.Ok?
    ensures |w| > 6 ==> w[5].got.Ok?
    ensures r.Ok? <==> |w| == 7
    ensures r.Ok? ==> r.value == SettingsOf(w, now)
  {
    var key, secret, organizationId, w1 := ReadCredentials(params, stack);
    w := w1;
    if key.None? || secret.None? {
      return Err(Failure("key and secret are required")), w;
    }
    var options, w2 := ReadOptions(params, stack, now);
    AppendAssoc(old(params.store.log), w1, w2);
    w := w1 + w2;
    assert w[0] == w1[0] && w[1] == w1[1] && w[2] == w1[2];
    assert forall k :: 0 <= k < |w2| ==> w[3 + k] == w2[k];
    OptionReadsInOrder(w2, stack);
    ReadsInOrderJoin(w1, w2, stack);
    if options.Err? {
      return Err(options.error), w;
    }
    var (tags, resolution, windowMinutes, alignEntities) := options.value;
    r := Ok(Settings(key.value, secret.value, organizationId, tags, resolution, windowMinutes, alignEntities));
  }

  /** The names of the reads after the credentials, one by one. */
  ghost predicate OptionReads(w: seq<StoreCall>, stack: string)
  {
    && (|w| > 0 ==> w[0].GetParameterCall? && w[0].name == ResolveParameter(IoTApiTags, stack))
    && (|w| > 1 ==> w[1].GetParameterCall? && w[1].name == ResolveParameter(SamplesReso, stack))
    && (|w| > 2 ==> w[2].GetParameterCall? && w[2].name == ResolveParameter(Scheduling, stack))
    && (|w| > 3 ==> w[3].GetParameterCall? && w[3].name == ResolveParameter(LastModelSync, stack))
  }

  lemma OptionReadsInOrder(w: seq<StoreCall>, stack: string)
    requires |w| <= 4 && OptionReads(w, stack)
    ensures ReadsInOrder(w, stack, 3)
  {
  }

  lemma ReadsInOrderJoin(w1: seq<StoreCall>, w2: seq<StoreCall>, stack: string)
    requires ReadsInOrder(w1, stack, 0) && ReadsInOrder(w2, stack, |w1|)
    ensures ReadsInOrder(w1 + w2, stack, 0)
  {
    var w := w1 + w2;
    forall k | 0 <= k < |w| && k < |ReadOrder|
      ensures w[k].GetParameterCall? && w[k].name == ResolveParameter(ReadOrder[k], stack)
    {
      if k >= |w1| {
        assert w[k] == w2[k - |w1|];
      }
    }
  }

  /**
   * HandleRequest. `connect` stands for building the aligner from the
   * credentials (its errors), `run` for the import with the given tags,
   * alignment flag, resolution and window (its errors).
   */
  method HandleRequest(
    params: ParametersClient, stack: string, now: Int64,
    connect: (string, string, string) -> seq<Error>,
    run: (Option<string>, bool, int, int) -> seq<Error>)
    returns (r: Result<string, Error>, ghost w: seq<StoreCall>)
    modifies params.store
    ensures params.store.log == old(params.store.log) + w
    ensures 3 <= |w| <= 8 && |w| != 4 && ReadsInOrder(w, stack, 0)
    // the stored parameters change only by the recorded sync time, and only when that write succeeds
    ensures |w| < 8 ==> params.store.params == old(params.store.params)
    ensures |w| == 8 && w[7].PutParameterCall? && w[7].put.None? ==>
      params.store.params == old(params.store.params)[ResolveParameter(LastModelSync, stack) := Itoa(now)]
    ensures |w| == 8 && w[7].PutParameterCall? && w[7].put.Some? ==> params.store.params == old(params.store.params)
    // a missing key or secret stops the run before anything is imported
    ensures ReadValue(w[0]).None? || ReadValue(w[1]).None? <==> |w| == 3
    ensures |w| == 3 ==> r == Err(Failure("key and secret are required"))
    // an unreadable resolution or schedule stops the run with the read's error
    ensures |w| == 5 ==> w[4].got.Err? && r == Err(w[4].got.error)
    ensures |w| == 6 ==> w[5].got.Err? && r == Err(w[5].got.error)
    // otherwise the import runs with the settings read
    ensures |w| >= 7 ==>
      var s := SettingsOf(w, now);
      var connected := connect(s.key, s.secret, s.organizationId);
      var imported := run(s.tags, s.alignEntities, s.resolution, s.windowMinutes);
      && (connected != [] ==> r == Err(connected[0]) && |w| == 7)
      && (connected == [] && imported != [] ==> r == Err(imported[0]) && |w| == 7)
      && (connected == [] && imported == [] ==> r == Ok(SuccessMessage) && (|w| == 8 <==> s.alignEntities))
    // the time of the run is recorded only after a clean run that aligned entities
    ensures |w| == 8 ==> w[7].PutParameterCall? && w[7].name == ResolveParameter(LastModelSync, stack) && w[7].value == Itoa(now)
    ensures r.Ok? ==> |w| >= 7
  {
    var settings;
    settings, w := ReadSettings(params, stack, now);
    if settings.Err? {
      return Err(settings.error), w;
    }
    var s := settings.value;
    var errs := connect(s.key, s.secret, s.organizationId);
    if |errs| > 0 {
      return Err(errs[0]), w;
    }
    errs := run(s.tags, s.alignEntities, s.resolution, s.windowMinutes);
    if |errs| > 0 {
      return Err(errs[0]), w;
    }
    if s.alignEntities {
      var put := params.UpdateParameterValue(LastModelSync, stack, Itoa(now));
      w := w + [PutParameterCall(ResolveParameter(LastModelSync, stack), Itoa(now), put)];
    }
    r := Ok(SuccessMessage);
  }
}
