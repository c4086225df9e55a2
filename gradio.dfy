/** The boundary to the remote Gradio client library. Nothing of the library is
    modelled: what a connection attempt or a `predict` call did is an input
    (an outcome), and every call the program makes is recorded in a trace. */
module Gradio {
  import opened Base

  /** A client handle; the library object is opaque, only its target is kept. */
  datatype Handle = Handle(target: string)

  /** What `Client(url)` did: returned a client, or raised with the given cause. */
  datatype ConnectOutcome = Connected | InitFailed(cause: string)

  /** What `client.predict(...)` did: returned a value (`str()` of it, or `None`),
      raised a `ConnectionError`, or raised any other exception. */
  datatype CallOutcome =
    | Returned(value: Option<string>)
    | NetworkFailure(cause: string)
    | OtherFailure(cause: string)

  /** One call into the library, as the program issued it. */
  datatype RemoteCall =
    | Connect(target: string)
    | Predict(target: string, message: string, apiName: string)

  /** The calls an operation issued and what it returned or raised. */
  datatype Attempt<+T, +E> = Attempt(calls: seq<RemoteCall>, result: Result<T, E>)

  /** The `predict` calls of a sequence of queries, in order, on one handle. */
  function PredictCalls(target: string, queries: seq<string>, apiName: string): (r: seq<RemoteCall>)
    ensures |r| == |queries|
    ensures forall k :: 0 <= k < |r| ==> r[k] == Predict(target, queries[k], apiName)
  {
    seq(|queries|, k requires 0 <= k < |queries| => Predict(target, queries[k], apiName))
  }
}
