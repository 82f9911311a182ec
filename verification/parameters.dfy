/**
 * Configuration parameters kept in the AWS Systems Manager parameter store.
 * Parameter names are templates holding the placeholder `<stack-name>`,
 * resolved against the name of the deployed stack before every store call;
 * a stored value of `<empty>` stands for the empty string.
 */
module Parameters {
  import opened Wrappers
  import opened Errors
  import opened GoStrings

  /** The placeholder in parameter names. */
  const StackName: string := "<stack-name>"

  /** The stored value that stands for an empty setting. */
  const EmptyMarker: string := "<empty>"

  /** Every occurrence of the placeholder replaced by the stack name. */
  function ResolveParameter(param: string, stack: string): string
  {
    ReplaceAll(param, StackName, stack)
  }

  /** A name without the placeholder is used as it is. */
  lemma ResolveWithoutPlaceholder(param: string, stack: string)
    requires forall i :: !OccursAt(param, StackName, i)
    ensures ResolveParameter(param, stack) == param
  {
    ReplaceAllWithoutOccurrence(param, StackName, stack);
  }

  /**
   * The first placeholder of a name is replaced by the stack name, and the
   * rest of the name is resolved in the same way.
   */
  lemma ResolveOccurrence(before: string, after: string, stack: string)
    requires '<' !in before
    ensures ResolveParameter(before + StackName + after, stack) == before + stack + ResolveParameter(after, stack)
  {
    ReplaceAllAfterPrefix(before, StackName, after, stack);
  }

  /** A name in which the placeholder appears once, with no `<` around it, holds the stack name instead. */
  lemma ResolveSingle(before: string, after: string, stack: string)
    requires '<' !in before && '<' !in after
    ensures ResolveParameter(before + StackName + after, stack) == before + stack + after
  {
    ResolveOccurrence(before, after, stack);
    forall i
      ensures !OccursAt(after, StackName, i)
    {
      if 0 <= i && i + |StackName| <= |after| {
        assert after[i..i + |StackName|][0] == after[i] != '<';
      }
    }
    ResolveWithoutPlaceholder(after, stack);
  }

  /**
   * The value ReadConfig hands back for a stored value: a missing value or
   * the `<empty>` marker becomes the empty string, anything else is kept.
   */
  function Normalise(v: Option<string>): (r: string)
    ensures v.None? || v.value == EmptyMarker ==> r == ""
    ensures v.Some? && v.value != EmptyMarker ==> r == v.value
  {
    if v.None? || v.value == EmptyMarker then "" else v.value
  }

  /** Normalising a normalised value changes nothing. */
  lemma NormaliseIdempotent(v: Option<string>)
    ensures Normalise(Some(Normalise(v))) == Normalise(v)
  {
  }

  /** One request to the store, with its reply. */
  datatype StoreCall =
    | GetParameterCall(name: string, got: Result<string, Error>)
    | PutParameterCall(name: string, value: string, put: Option<Error>)

  /** The reply to reading a name from stored parameters, when the store does not fail. */
  function Lookup(params: map<string, string>, name: string): (r: Result<string, Error>)
    ensures r.Ok? <==> name in params
    ensures r.Ok? ==> r.value == params[name]
  {
    if name in params then Ok(params[name]) else Err(Failure("ParameterNotFound: " + name))
  }

  /** A value written and then read back under the same name is the value written, normalised. */
  lemma ReadBackWritten(params: map<string, string>, name: string, value: string)
    ensures Lookup(params[name := value], name) == Ok(value)
    ensures Normalise(Some(value)) == (if value == EmptyMarker then "" else value)
  {
  }

  /**
   * The parameter store: the stored parameters and a log of every request.
   * Which requests fail for reasons of their own (permissions, throttling)
   * is an oracle indexed by the position of the request in the log.
   */
  class ParameterStore {
    var params: map<string, string>
    var log: seq<StoreCall>
    const failure: nat -> Option<Error>

    constructor (params: map<string, string>, failure: nat -> Option<Error>)
      ensures this.params == params && log == [] && this.failure == failure
    {
      this.params := params;
      log := [];
      this.failure := failure;
    }

    /** The reply the next read of `name` gets. */
    function NextGet(name: string): Result<string, Error>
      reads this
    {
      if failure(|log|).Some? then Err(failure(|log|).value) else Lookup(params, name)
    }

    /** GetParameter: reads a value, leaving the parameters as they are. */
    method GetParameter(name: string) returns (r: Result<string, Error>)
      modifies this
      ensures r == old(NextGet(name))
      ensures params == old(params)
      ensures log == old(log) + [GetParameterCall(name, r)]
    {
      r := NextGet(name);
      log := log + [GetParameterCall(name, r)];
    }

    /** PutParameter with overwrite: stores the value unless the request fails. */
    method PutParameter(name: string, value: string) returns (err: Option<Error>)
      modifies this
      ensures err == old(failure(|log|))
      ensures err.None? ==> params == old(params)[name := value]
      ensures err.Some? ==> params == old(params)
      ensures log == old(log) + [PutParameterCall(name, value, err)]
    {
      err := failure(|log|);
      if err.None? {
        params := params[name := value];
      }
      log := log + [PutParameterCall(name, value, err)];
    }
  }

  /** What ReadConfig makes of the store's reply: the normalised value, or the error. */
  function ConfigValue(got: Result<string, Error>): (r: Result<string, Error>)
    ensures r.Err? <==> got.Err?
    ensures r.Err? ==> r.error == got.error
    ensures r.Ok? ==> r.value == Normalise(Some(got.value))
  {
    if got.Err? then Err(got.error) else Ok(Normalise(Some(got.value)))
  }

  /** The value a logged read handed back, as a Go pointer: none when the read failed. */
  function ReadValue(c: StoreCall): (v: Option<string>)
    ensures v.Some? <==> c.GetParameterCall? && c.got.Ok?
    ensures v.Some? ==> v.value == Normalise(Some(c.got.value))
  {
    if c.GetParameterCall? && c.got.Ok? then Some(Normalise(Some(c.got.value))) else None
  }

  /** The integration's access to the store. */
  class ParametersClient {
    const store: ParameterStore

    constructor (store: ParameterStore)
      ensures this.store == store
    {
      this.store := store;
    }

    /**
     * Reads a parameter by its resolved name; the value comes back
     * normalised, and a failed read comes back as its error.
     */
    method ReadConfig(param: string, stack: string) returns (r: Result<string, Error>)
      modifies store
      ensures store.params == old(store.params)
      ensures store.log == old(store.log) + [GetParameterCall(ResolveParameter(param, stack), old(store.NextGet(ResolveParameter(param, stack))))]
      ensures r == ConfigValue(old(store.NextGet(ResolveParameter(param, stack))))
    {
      var name := ResolveParameter(param, stack);
      var value := store.GetParameter(name);
      if value.Err? {
        return Err(value.error);
      }
      r := Ok(Normalise(Some(value.value)));
    }

    /** Overwrites a parameter under its resolved name; the store's error, if any, is returned. */
    method UpdateParameterValue(param: string, stack: string, value: string) returns (err: Option<Error>)
      modifies store
      ensures err == old(store.failure(|store.log|))
      ensures err.None? ==> store.params == old(store.params)[ResolveParameter(param, stack) := value]
      ensures err.Some? ==> store.params == old(store.params)
      ensures store.log == old(store.log) + [PutParameterCall(ResolveParameter(param, stack), value, err)]
    {
      err := store.PutParameter(ResolveParameter(param, stack), value);
    }
  }
}
