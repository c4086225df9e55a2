/** The packaged command-line front end: the `chat` and `ask` commands built on
    the shared core. Console output is not modelled; what is kept is which
    queries are sent, what each returned, which output path `ask` takes and the
    exit code. */
module Cli {
  import opened Base
  import opened Text
  import opened Gradio
  import Client
  import opened ChatInput
  import opened Commands

  /** `_initialize_client`: a client, or exit code 1 on any connection failure. */
  function InitializeClient(url: string, outcome: ConnectOutcome): (r: Attempt<Handle, int>)
    ensures r.calls == [Connect(url)]
    ensures r.result.Success? <==> outcome.Connected?
    ensures r.result.Success? ==> r.result.value.target == url
    ensures r.result.Failure? ==> r.result.error == 1
  {
    var c := Client.ConnectClient(url, outcome);
    match c.result
    case Success(h) => Attempt(c.calls, Success(h))
    case Failure(_) => Attempt(c.calls, Failure(1))
  }

  /** `_query_with_progress`: the core query, whose result it normalises once more. */
  function QueryWithProgress(message: string, client: Handle, apiEndpoint: string, outcome: CallOutcome)
    : (r: Attempt<string, Client.ClientError>)
    // the second normalisation never changes what the core returned
    ensures r == Client.QueryModel(message, client, apiEndpoint, outcome)
  {
    var q := Client.QueryModel(message, client, apiEndpoint, outcome);
    match q.result
    case Success(response) => Attempt(q.calls, Success(Client.NormalizeResponse(Some(response))))
    case Failure(e) => Attempt(q.calls, Failure(e))
  }

  /** `chat`: connect once, then read prompts until exit/quit or end of input,
      sending each non-blank line, stripped, as one query. `remote(k)` is what the
      k-th `predict` call does. Returns the queries sent in order and what each
      returned or raised; no failure of a query ends the loop. */
  method Chat(url: string, apiEndpoint: string, connect: ConnectOutcome, inputs: seq<Prompt>, remote: nat -> CallOutcome)
    returns (calls: seq<RemoteCall>, sent: seq<string>, replies: seq<Result<string, Client.ClientError>>, end: ChatEnd)
    ensures connect.InitFailed? ==> calls == [Connect(url)] && sent == [] && replies == [] && end == ConnectFailed(1)
    ensures connect.Connected? ==>
      && end == Finished(StopOf(inputs, Packaged))
      // one predict call per query sent, in order, on the one client
      && calls == [Connect(url)] + PredictCalls(url, sent, apiEndpoint)
      && sent == Sent(inputs, Packaged)
      && |replies| == |sent|
      && forall k :: 0 <= k < |replies| ==>
           replies[k] == QueryWithProgress(sent[k], Handle(url), apiEndpoint, remote(k)).result
  {
    var init := InitializeClient(url, connect);
    if init.result.Failure? {
      calls, sent, replies, end := init.calls, [], [], ConnectFailed(init.result.error);
      return;
    }
    var client := init.result.value;
    // how each prompt is handled: stripped, then exit/quit, blank or a query
    var steps := Steps(inputs, Packaged);
    var query := (m: string, k: nat) => QueryWithProgress(m, client, apiEndpoint, remote(k));
    var t := Converse(steps, query);
    calls, sent, replies, end := init.calls + t.calls, t.sent, t.replies, Finished(t.stop);
    TalkSends(steps, 0, query, [], [], []);
    forall m: string, k: nat ensures query(m, k).calls == [Predict(url, m, apiEndpoint)] {
      assert query(m, k) == QueryWithProgress(m, client, apiEndpoint, remote(k));
    }
    TalkCalls(steps, 0, query, [], [], [], url, apiEndpoint);
    TalkReplies(steps, 0, query, [], [], []);
  }

  /** `ask`: connect, send `message` once, and write the response to the output
      file if one is given, else show it as Markdown if asked, else raw.
      `writeSucceeds` is whether writing the file works. */
  function Ask(message: string, url: string, apiEndpoint: string, markdownOutput: bool,
               outputFile: Option<string>, connect: ConnectOutcome, call: CallOutcome,
               writeSucceeds: bool): (r: AskRun)
    ensures connect.InitFailed? ==> r.calls == [Connect(url)]
    ensures connect.Connected? ==> r.calls == [Connect(url), Predict(url, message, apiEndpoint)]
    // every failure (connection, query, file) ends with exit code 1, success with 0
    ensures r.exitCode == (if connect.Connected? && call.Returned? && (outputFile.None? || writeSucceeds) then 0 else 1)
    ensures r.output.Some? <==> r.exitCode == 0
    // exactly one output path: the file first, then Markdown, then raw
    ensures r.output.Some? ==>
      var text := Client.NormalizeResponse(call.value);
      && (outputFile.Some? ==> r.output.value == SavedTo(outputFile.value, text))
      && (outputFile.None? && markdownOutput ==> r.output.value == ShownAsMarkdown(text))
      && (outputFile.None? && !markdownOutput ==> r.output.value == ShownRaw(text))
  {
    var init := InitializeClient(url, connect);
    match init.result
    case Failure(code) => AskRun(init.calls, None, code)
    case Success(client) =>
      var q := QueryWithProgress(message, client, apiEndpoint, call);
      match q.result
      case Failure(_) => AskRun(init.calls + q.calls, None, 1)
      case Success(response) =>
        if outputFile.Some? then
          if writeSucceeds then AskRun(init.calls + q.calls, Some(SavedTo(outputFile.value, response)), 0)
          else AskRun(init.calls + q.calls, None, 1)
        else if markdownOutput then AskRun(init.calls + q.calls, Some(ShownAsMarkdown(response)), 0)
        else AskRun(init.calls + q.calls, Some(ShownRaw(response)), 0)
  }
}
