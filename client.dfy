/** The shared core: opening a client on a Gradio Space and sending one query
    through it, with every failure folded into a fixed error taxonomy. */
module Client {
  import opened Base
  import opened Gradio

  const DefaultGradioUrl: string := "tencent/Hunyuan-T1"
  const GradioApiEndpoint: string := "/chat"

  const SetupPrefix: string := "Could not initialize client for '"
  const SetupReason: string := "'. Reason: "
  // The two long prefixes are written as two literals each: the verifier only
  // looks inside string literals of at most 44 characters.
  const ApiCallFailed: string := "Gradio API call failed"
  const NetworkPrefix: string := ApiCallFailed + " due to network issue: "
  const PredictionPrefix: string := "An unexpected error occurred" + " during prediction: "

  /** The exceptions the core raises; `message` is what `str(e)` gives. */
  datatype ClientError =
    | ConnectionSetupError(message: string)
    | ConnectionError(message: string)
    | PredictionError(message: string)

  predicate StartsWith(s: string, prefix: string) {
    |prefix| <= |s| && s[..|prefix|] == prefix
  }

  /** `connect_client`: one attempt to open a client on `url`. */
  function ConnectClient(url: string, outcome: ConnectOutcome): (r: Attempt<Handle, ClientError>)
    ensures r.calls == [Connect(url)]
    ensures r.result.Success? <==> outcome.Connected?
    ensures r.result.Success? ==> r.result.value.target == url
    // every initialisation failure is the one kind, naming the target and ending with the cause
    ensures r.result.Failure? ==>
      && r.result.error.ConnectionSetupError?
      && var m := r.result.error.message;
      && StartsWith(m, SetupPrefix)
      && |m| >= |SetupPrefix| + |url| + |outcome.cause|
      && m[|SetupPrefix|..|SetupPrefix| + |url|] == url
      && m[|SetupPrefix| + |url|..|m| - |outcome.cause|] == SetupReason
      && m[|m| - |outcome.cause|..] == outcome.cause
  {
    match outcome
    case Connected => Attempt([Connect(url)], Success(Handle(url)))
    case InitFailed(cause) =>
      var m := SetupPrefix + url + SetupReason + cause;
      assert m[|SetupPrefix|..|SetupPrefix| + |url|] == url;
      Attempt([Connect(url)], Failure(ConnectionSetupError(m)))
  }

  /** `str(response) if response is not None else ""`. */
  function NormalizeResponse(response: Option<string>): (r: string)
    ensures response.None? ==> r == ""
    ensures response.Some? ==> r == response.value
  {
    response.GetOr("")
  }

  /** The prefix that `query_hunyuan_model` puts before the cause of an error of this kind. */
  function PrefixOf(e: ClientError): string {
    match e
    case ConnectionSetupError(_) => SetupPrefix
    case ConnectionError(_) => NetworkPrefix
    case PredictionError(_) => PredictionPrefix
  }

  /** `query_hunyuan_model`: one `predict` call on `client` at `apiEndpoint`. */
  function QueryModel(message: string, client: Handle, apiEndpoint: string, outcome: CallOutcome): (r: Attempt<string, ClientError>)
    // exactly one call, no retry, the endpoint forwarded unchanged
    ensures r.calls == [Predict(client.target, message, apiEndpoint)]
    ensures r.result.Success? <==> outcome.Returned?
    // never None: an absent response is the empty string, a present one is kept
    ensures r.result.Success? ==> r.result.value == NormalizeResponse(outcome.value)
    // two failure kinds, chosen by the cause, never a setup error
    ensures r.result.Failure? ==> !r.result.error.ConnectionSetupError?
    ensures r.result.Failure? ==> (r.result.error.ConnectionError? <==> outcome.NetworkFailure?)
    ensures r.result.Failure? ==> (r.result.error.PredictionError? <==> outcome.OtherFailure?)
    // the message is the kind's prefix followed by the cause
    ensures r.result.Failure? ==>
      && StartsWith(r.result.error.message, PrefixOf(r.result.error))
      && r.result.error.message[|PrefixOf(r.result.error)|..] == outcome.cause
  {
    var calls := [Predict(client.target, message, apiEndpoint)];
    match outcome
    case Returned(response) => Attempt(calls, Success(if response.Some? then response.value else ""))
    case NetworkFailure(cause) => Attempt(calls, Failure(ConnectionError(NetworkPrefix + cause)))
    case OtherFailure(cause) => Attempt(calls, Failure(PredictionError(PredictionPrefix + cause)))
  }

  /** The kind of a query error can be read back from its message alone. */
  function KindOfMessage(message: string): (r: Option<ClientError>)
  {
    if StartsWith(message, NetworkPrefix) then Some(ConnectionError(message))
    else if StartsWith(message, PredictionPrefix) then Some(PredictionError(message))
    else None
  }

  /** Reading back a query error from its text gives the error that was raised:
      the two prefixes cannot be confused. */
  lemma QueryErrorReadable(message: string, client: Handle, apiEndpoint: string, outcome: CallOutcome)
    requires QueryModel(message, client, apiEndpoint, outcome).result.Failure?
    ensures var e := QueryModel(message, client, apiEndpoint, outcome).result.error;
      KindOfMessage(e.message) == Some(e)
  {
    var e := QueryModel(message, client, apiEndpoint, outcome).result.error;
    if e.PredictionError? {
      assert PredictionPrefix[0] == 'A' && NetworkPrefix[0] == 'G';
      assert e.message[0] == 'A';
      assert e.message[..|NetworkPrefix|][0] == e.message[0];
    }
  }
}
