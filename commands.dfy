/** What the command-line front ends (the packaged CLI and the older script)
    report about one command: how a chat ended and where an answer went. */
module Commands {
  import opened Base
  import opened Gradio
  import opened ChatInput

  /** How a `chat` command ended: it could not connect (with its exit code), or
      its loop stopped for the given reason. */
  datatype ChatEnd = ConnectFailed(exitCode: int) | Finished(stop: Stop)

  /** Where `ask` puts a response. */
  datatype Output = SavedTo(path: string, text: string) | ShownAsMarkdown(text: string) | ShownRaw(text: string)

  /** What an `ask` command did: the calls it made, the response it delivered
      if any, and its exit code. */
  datatype AskRun = AskRun(calls: seq<RemoteCall>, output: Option<Output>, exitCode: int)
}
