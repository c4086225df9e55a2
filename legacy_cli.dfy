/** The older single-file script `hunyuan.py`: its own query function, its own
    connection helper and its own `chat` and `ask` commands, which talk to the
    library directly rather than through the shared core. */
module LegacyCli {
  import opened Base
  import opened Gradio
  import Client
  import opened ChatInput
  import opened Commands

  const DefaultGradioUrl: string := "tencent/Hunyuan-T1"
  /** The endpoint is fixed here; the script has no option for it. */
  const ApiName: string := "/chat"
  const NetworkPrefix: string := Client.ApiCallFailed + ": "
  const RuntimePrefix: string := Client.PredictionPrefix

  /** The two exceptions `query_hunyuan` raises; `message` is what `str(e)` gives. */
  datatype LegacyError = ConnectionError(message: string) | RuntimeError(message: string)

  function PrefixOf(e: LegacyError): string {
    if e.ConnectionError? then NetworkPrefix else RuntimePrefix
  }

  /** `query_hunyuan`: one `predict` call on `/chat`. Whether a spinner is shown
      makes no difference to the call or its result. */
  function QueryHunyuan(message: string, client: Handle, showProgress: bool, outcome: CallOutcome)
    : (r: Attempt<string, LegacyError>)
    ensures r.calls == [Predict(client.target, message, ApiName)]
    ensures r.result.Success? <==> outcome.Returned?
    ensures r.result.Success? ==> r.result.value == Client.NormalizeResponse(outcome.value)
    // a network failure stays a ConnectionError; everything else becomes a RuntimeError
    ensures r.result.Failure? ==> (r.result.error.ConnectionError? <==> outcome.NetworkFailure?)
    ensures r.result.Failure? ==>
      && Client.StartsWith(r.result.error.message, PrefixOf(r.result.error))
      && r.result.error.message[|PrefixOf(r.result.error)|..] == outcome.cause
  {
    var calls := [Predict(client.target, message, ApiName)];
    match outcome
    case Returned(response) => Attempt(calls, Success(if response.Some? then response.value else ""))
    case NetworkFailure(cause) => Attempt(calls, Failure(ConnectionError(NetworkPrefix + cause)))
    case OtherFailure(cause) => Attempt(calls, Failure(RuntimeError(RuntimePrefix + cause)))
  }

  /** The script and the shared core make the same call and return the same
      response; their errors correspond kind for kind, the prediction errors
      carry the same text, and both network messages begin "Gradio API call failed". */
  lemma QueryMatchesCore(message: string, client: Handle, showProgress: bool, outcome: CallOutcome)
    ensures var l := QueryHunyuan(message, client, showProgress, outcome);
      var c := Client.QueryModel(message, client, Client.GradioApiEndpoint, outcome);
      && l.calls == c.calls
      && (l.result.Success? <==> c.result.Success?)
      && (l.result.Success? ==> l.result.value == c.result.value)
      && (l.result.Failure? ==> (l.result.error.ConnectionError? <==> c.result.error.ConnectionError?))
      && (l.result.Failure? && l.result.error.ConnectionError? ==>
            && Client.StartsWith(l.result.error.message, Client.ApiCallFailed)
            && Client.StartsWith(c.result.error.message, Client.ApiCallFailed))
      && (l.result.Failure? && l.result.error.RuntimeError? ==>
            l.result.error.message == c.result.error.message)
  {
  }

  /** `_connect_client`: a client, or exit code 1 on any failure to create one. */
  function ConnectClient(url: string, outcome: ConnectOutcome): (r: Attempt<Handle, int>)
    ensures r.calls == [Connect(url)]
    ensures r.result.Success? <==> outcome.Connected?
    ensures r.result.Success? ==> r.result.value.target == url
    ensures r.result.Failure? ==> r.result.error == 1
  {
    match outcome
    case Connected => Attempt([Connect(url)], Success(Handle(url)))
    case InitFailed(_) => Attempt([Connect(url)], Failure(1))
  }

  /** `chat`: connect once, then read prompts until exit/quit or end of input,
      sending each non-blank line exactly as typed; an interrupt at the prompt
      is not caught and ends the run. `remote(k)` is what the k-th `predict`
      call does; no failure of a query ends the loop. */
  method Chat(url: string, connect: ConnectOutcome, inputs: seq<Prompt>, remote: nat -> CallOutcome)
    returns (calls: seq<RemoteCall>, sent: seq<string>, replies: seq<Result<string, LegacyError>>, end: ChatEnd)
    ensures connect.InitFailed? ==> calls == [Connect(url)] && sent == [] && replies == [] && end == ConnectFailed(1)
    ensures connect.Connected? ==>
      && end == Finished(StopOf(inputs, Legacy))
      // one predict call per query sent, in order, on the one client
      && calls == [Connect(url)] + PredictCalls(url, sent, ApiName)
      && sent == Sent(inputs, Legacy)
      && |replies| == |sent|
      && forall k :: 0 <= k < |replies| ==>
           replies[k] == QueryHunyuan(sent[k], Handle(url), true, remote(k)).result
  {
    var init := ConnectClient(url, connect);
    if init.result.Failure? {
      calls, sent, replies, end := init.calls, [], [], ConnectFailed(init.result.error);
      return;
    }
    var client := init.result.value;
    // how each prompt is handled: stripped, then exit/quit, blank or a query
    var steps := Steps(inputs, Legacy);
    var query := (m: string, k: nat) => QueryHunyuan(m, client, true, remote(k));
    var t := Converse(steps, query);
    calls, sent, replies, end := init.calls + t.calls, t.sent, t.replies, Finished(t.stop);
    TalkSends(steps, 0, query, [], [], []);
    forall m: string, k: nat ensures query(m, k).calls == [Predict(url, m, ApiName)] {
      assert query(m, k) == QueryHunyuan(m, client, true, remote(k));
    }
    TalkCalls(steps, 0, query, [], [], [], url, ApiName);
    TalkReplies(steps, 0, query, [], [], []);
  }

  /** `ask`: connect, send `message` once on `/chat`, and write the response to
      the output file if one is given, else show it as Markdown if asked, else
      raw. `writeSucceeds` is whether writing the file works. */
  function Ask(message: string, url: string, markdown: bool, output: Option<string>,
               connect: ConnectOutcome, call: CallOutcome, writeSucceeds: bool): (r: AskRun)
    ensures connect.InitFailed? ==> r.calls == [Connect(url)]
    ensures connect.Connected? ==> r.calls == [Connect(url), Predict(url, message, ApiName)]
    ensures r.exitCode == (if connect.Connected? && call.Returned? && (output.None? || writeSucceeds) then 0 else 1)
    ensures r.output.Some? <==> r.exitCode == 0
    ensures r.output.Some? ==>
      var text := Client.NormalizeResponse(call.value);
      && (output.Some? ==> r.output.value == SavedTo(output.value, text))
      && (output.None? && markdown ==> r.output.value == ShownAsMarkdown(text))
      && (output.None? && !markdown ==> r.output.value == ShownRaw(text))
  {
    var init := ConnectClient(url, connect);
    match init.result
    case Failure(code) => AskRun(init.calls, None, code)
    case Success(client) =>
      var q := QueryHunyuan(message, client, true, call);
      match q.result
      case Failure(_) => AskRun(init.calls + q.calls, None, 1)
      case Success(response) =>
        if output.Some? then
          if writeSucceeds then AskRun(init.calls + q.calls, Some(SavedTo(output.value, response)), 0)
          else AskRun(init.calls + q.calls, None, 1)
        else if markdown then AskRun(init.calls + q.calls, Some(ShownAsMarkdown(response)), 0)
        else AskRun(init.calls + q.calls, Some(ShownRaw(response)), 0)
  }
}
