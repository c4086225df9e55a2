/** How the two interactive `chat` loops (the packaged CLI and the older
    single-file script) read their input: what each prompt does to the loop,
    and, as specification functions, which queries a whole input sends and why
    the loop stops. */
module ChatInput {
  import opened Base
  import opened Text
  import opened Gradio

  /** What one read of the prompt produced. */
  datatype Prompt = Line(text: string) | EndOfFile | Interrupt

  /** The packaged CLI sends the stripped line and catches an interrupt at the
      prompt; the older script sends the line as typed and does not catch it. */
  datatype Dialect = Packaged | Legacy

  /** Why a chat loop ended. */
  datatype Stop =
    | QuitCommand   // the user typed exit or quit
    | InputClosed   // end of input (and, in the packaged CLI, an interrupt) at the prompt
    | Aborted       // an interrupt at the prompt of the older script, which it does not catch

  /** What a loop does at one prompt. */
  datatype Step = Halt(reason: Stop) | Skip | Send(query: string)

  predicate IsQuitWord(s: string) {
    s == "exit" || s == "quit"
  }

  /** The handling of one line: leave on exit/quit (stripped, lower-cased), skip a
      blank line, otherwise send exactly one query. */
  function Action(text: string, d: Dialect): Step {
    var cleaned := Strip(text);
    if IsQuitWord(Lower(cleaned)) then Halt(QuitCommand)
    else if cleaned == [] then Skip
    else if d == Packaged then Send(cleaned)
    else Send(text)
  }

  /** What one line does: exit or quit in any case and with any surrounding
      whitespace leaves; otherwise an all-whitespace line is skipped; anything
      else is sent once, stripped by the packaged CLI and as typed by the older
      script, and what is sent is never blank. */
  lemma ActionSpec(text: string, d: Dialect)
    ensures var a := Action(text, d);
      && (a.Halt? <==> IsQuitWord(Lower(Strip(text))))
      && (a.Halt? ==> a.reason == QuitCommand)
      && (a.Skip? <==> !a.Halt? && AllSpace(text))
      && (a.Send? ==> Strip(a.query) == Strip(text) != [])
      && (a.Send? && d == Packaged ==> a.query == Strip(text))
      && (a.Send? && d == Legacy ==> a.query == text)
  {
    StripEmptyIff(text);
    StripIdempotent(text);
  }

  /** The handling of one prompt: end of input stops the loop, and so does an
      interrupt, which only the packaged CLI catches. */
  function StepOf(p: Prompt, d: Dialect): Step {
    match p
    case Line(text) => Action(text, d)
    case EndOfFile => Halt(InputClosed)
    case Interrupt => Halt(if d == Packaged then InputClosed else Aborted)
  }

  /** The handling of each prompt of an input, in order. */
  function Steps(inputs: seq<Prompt>, d: Dialect): (r: seq<Step>)
    ensures |r| == |inputs|
  {
    if inputs == [] then [] else [StepOf(inputs[0], d)] + Steps(inputs[1..], d)
  }

  lemma {:induction false} StepsAt(inputs: seq<Prompt>, d: Dialect, k: nat)
    requires k < |inputs|
    ensures Steps(inputs, d)[k] == StepOf(inputs[k], d)
  {
    if k > 0 {
      StepsAt(inputs[1..], d, k - 1);
    }
  }

  lemma StepsPrefix(inputs: seq<Prompt>, d: Dialect, j: nat)
    requires j <= |inputs|
    ensures Steps(inputs, d)[..j] == Steps(inputs[..j], d)
  {
    forall k | 0 <= k < j ensures Steps(inputs, d)[k] == Steps(inputs[..j], d)[k] {
      StepsAt(inputs, d, k);
      StepsAt(inputs[..j], d, k);
    }
  }

  lemma StepsAppend(a: seq<Prompt>, b: seq<Prompt>, d: Dialect)
    ensures Steps(a + b, d) == Steps(a, d) + Steps(b, d)
  {
    forall k | 0 <= k < |a| + |b| ensures Steps(a + b, d)[k] == (Steps(a, d) + Steps(b, d))[k] {
      StepsAt(a + b, d, k);
      if k < |a| { StepsAt(a, d, k); } else { StepsAt(b, d, k - |a|); }
    }
  }

  /** The queries sent by a run of steps: everything up to the first halt. */
  function Queries(steps: seq<Step>): seq<string> {
    if steps == [] || steps[0].Halt? then []
    else (if steps[0].Send? then [steps[0].query] else []) + Queries(steps[1..])
  }

  /** Why a run of steps stops: its first halt, or the end of input. */
  function Reason(steps: seq<Step>): Stop {
    if steps == [] then InputClosed
    else if steps[0].Halt? then steps[0].reason
    else Reason(steps[1..])
  }

  /** The queries a loop sends for a whole input, in order; the input running
      out counts as end of input. */
  function Sent(inputs: seq<Prompt>, d: Dialect): seq<string> {
    Queries(Steps(inputs, d))
  }

  /** Why the loop stops on this input. */
  function StopOf(inputs: seq<Prompt>, d: Dialect): Stop {
    Reason(Steps(inputs, d))
  }

  lemma {:induction false} QueriesStopAtHalt(steps: seq<Step>, j: nat)
    requires j < |steps| && steps[j].Halt?
    ensures Queries(steps) == Queries(steps[..j])
  {
    var prefix := steps[..j];
    if j > 0 {
      assert prefix[0] == steps[0];
      if !steps[0].Halt? {
        assert prefix[1..] == steps[1..][..j - 1];
        QueriesStopAtHalt(steps[1..], j - 1);
      }
    }
  }

  lemma {:induction false} QueriesAppend(a: seq<Step>, b: seq<Step>)
    requires forall k :: 0 <= k < |a| ==> !a[k].Halt?
    ensures Queries(a + b) == Queries(a) + Queries(b)
  {
    if a == [] {
      assert a + b == b;
    } else {
      var t := a[1..];
      assert (a + b)[0] == a[0];
      assert (a + b)[1..] == t + b;
      forall k | 0 <= k < |t| ensures !t[k].Halt? {
        assert t[k] == a[k + 1];
      }
      QueriesAppend(t, b);
    }
  }

  /** Nothing typed after the prompt that ends the loop is ever sent. */
  lemma SentStopsAtEnd(inputs: seq<Prompt>, d: Dialect, j: nat)
    requires j < |inputs| && StepOf(inputs[j], d).Halt?
    ensures Sent(inputs, d) == Sent(inputs[..j], d)
  {
    StepsAt(inputs, d, j);
    QueriesStopAtHalt(Steps(inputs, d), j);
    StepsPrefix(inputs, d, j);
  }

  /** Prompts before the end are handled one after another: the queries of a
      concatenation are the queries of its parts. */
  lemma SentAppend(a: seq<Prompt>, b: seq<Prompt>, d: Dialect)
    requires forall k :: 0 <= k < |a| ==> !StepOf(a[k], d).Halt?
    ensures Sent(a + b, d) == Sent(a, d) + Sent(b, d)
  {
    StepsAppend(a, b, d);
    forall k | 0 <= k < |a| ensures !Steps(a, d)[k].Halt? {
      StepsAt(a, d, k);
    }
    QueriesAppend(Steps(a, d), Steps(b, d));
  }

  /** Every query sent is a non-blank line that is not exit or quit; the
      packaged CLI sends it already stripped. */
  lemma {:induction false} QueriesAreMessages(steps: seq<Step>, d: Dialect)
    requires forall k :: 0 <= k < |steps| && steps[k].Send? ==>
      && Strip(steps[k].query) != []
      && !IsQuitWord(Lower(Strip(steps[k].query)))
      && (d == Packaged ==> Strip(steps[k].query) == steps[k].query)
    ensures forall q <- Queries(steps) ::
      && Strip(q) != []
      && !IsQuitWord(Lower(Strip(q)))
      && (d == Packaged ==> Strip(q) == q)
  {
    if steps != [] && !steps[0].Halt? {
      QueriesAreMessages(steps[1..], d);
    }
  }

  lemma SentQueriesAreMessages(inputs: seq<Prompt>, d: Dialect)
    ensures forall q <- Sent(inputs, d) ::
      && Strip(q) != []
      && !IsQuitWord(Lower(Strip(q)))
      && (d == Packaged ==> Strip(q) == q)
  {
    var steps := Steps(inputs, d);
    forall k | 0 <= k < |steps| && steps[k].Send?
      ensures && Strip(steps[k].query) != []
              && !IsQuitWord(Lower(Strip(steps[k].query)))
              && (d == Packaged ==> Strip(steps[k].query) == steps[k].query)
    {
      StepsAt(inputs, d, k);
      if inputs[k].Line? {
        ActionSpec(inputs[k].text, d);
      }
    }
    QueriesAreMessages(steps, d);
  }

  /** Both dialects classify one prompt alike, except that the packaged one
      strips what it sends. */
  lemma StepDialects(p: Prompt)
    ensures StepOf(p, Packaged).Halt? <==> StepOf(p, Legacy).Halt?
    ensures StepOf(p, Packaged).Send? <==> StepOf(p, Legacy).Send?
    ensures StepOf(p, Packaged).Send? ==> StepOf(p, Packaged).query == Strip(StepOf(p, Legacy).query)
  {
  }

  /** Two step sequences that agree step for step, up to a map `f` on what
      they send, send queries that agree up to `f`. */
  lemma {:induction false} QueriesMapped(a: seq<Step>, b: seq<Step>, f: string -> string)
    requires |a| == |b|
    requires forall k :: 0 <= k < |a| ==>
      && (a[k].Halt? <==> b[k].Halt?)
      && (a[k].Send? <==> b[k].Send?)
      && (a[k].Send? ==> a[k].query == f(b[k].query))
    ensures |Queries(a)| == |Queries(b)|
    ensures forall k :: 0 <= k < |Queries(b)| ==> Queries(a)[k] == f(Queries(b)[k])
  {
    if a != [] && !a[0].Halt? {
      QueriesMapped(a[1..], b[1..], f);
    }
  }

  /** The two loops accept the same lines; the packaged one sends each of them
      stripped where the older one sends it as typed. */
  lemma PackagedSendsStrippedLegacy(inputs: seq<Prompt>)
    ensures |Sent(inputs, Packaged)| == |Sent(inputs, Legacy)|
    ensures forall k :: 0 <= k < |Sent(inputs, Legacy)| ==>
      Sent(inputs, Packaged)[k] == Strip(Sent(inputs, Legacy)[k])
  {
    var a, b := Steps(inputs, Packaged), Steps(inputs, Legacy);
    forall k | 0 <= k < |a|
      ensures && (a[k].Halt? <==> b[k].Halt?)
              && (a[k].Send? <==> b[k].Send?)
              && (a[k].Send? ==> a[k].query == Strip(b[k].query))
    {
      StepsAt(inputs, Packaged, k);
      StepsAt(inputs, Legacy, k);
      StepDialects(inputs[k]);
    }
    QueriesMapped(a, b, Strip);
  }

  /** What a chat loop produced: the calls it made, the queries it sent, what
      each of them returned or raised, and why it stopped. */
  datatype Transcript<+E> = Transcript(calls: seq<RemoteCall>, sent: seq<string>, replies: seq<Result<string, E>>, stop: Stop)

  /** The loop from prompt `i` on, having made `calls`, sent `sent` and got
      `replies` so far; `query(m, k)` is what sending `m` as the k-th query does.
      It follows the loop prompt by prompt. */
  function Talk<E>(steps: seq<Step>, i: nat, query: (string, nat) -> Attempt<string, E>,
                   calls: seq<RemoteCall>, sent: seq<string>, replies: seq<Result<string, E>>): Transcript<E>
    requires i <= |steps|
    decreases |steps| - i
  {
    if i == |steps| then Transcript(calls, sent, replies, InputClosed)
    else match steps[i]
      case Halt(reason) => Transcript(calls, sent, replies, reason)
      case Skip => Talk(steps, i + 1, query, calls, sent, replies)
      case Send(m) =>
        var q := query(m, |sent|);
        Talk(steps, i + 1, query, calls + q.calls, sent + [m], replies + [q.result])
  }

  /** The loop goes on sending what the rest of the run sends, and stops for
      the rest's reason. */
  lemma {:induction false} TalkSends<E>(steps: seq<Step>, i: nat, query: (string, nat) -> Attempt<string, E>,
                                        calls: seq<RemoteCall>, sent: seq<string>, replies: seq<Result<string, E>>)
    requires i <= |steps|
    decreases |steps| - i
    ensures var t := Talk(steps, i, query, calls, sent, replies);
      t.sent == sent + Queries(steps[i..]) && t.stop == Reason(steps[i..])
  {
    if i < |steps| {
      assert steps[i..][0] == steps[i] && steps[i..][1..] == steps[i + 1..];
      match steps[i]
      case Halt(_) =>
      case Skip => TalkSends(steps, i + 1, query, calls, sent, replies);
      case Send(m) =>
        var q := query(m, |sent|);
        TalkSends(steps, i + 1, query, calls + q.calls, sent + [m], replies + [q.result]);
        assert (sent + [m]) + Queries(steps[i + 1..]) == sent + ([m] + Queries(steps[i + 1..]));
    }
  }

  /** When every query is one `predict` call on `target` at `api`, the loop's
      calls are one such call per query sent, in order. */
  lemma {:induction false} TalkCalls<E>(steps: seq<Step>, i: nat, query: (string, nat) -> Attempt<string, E>,
                                        calls: seq<RemoteCall>, sent: seq<string>, replies: seq<Result<string, E>>,
                                        target: string, api: string)
    requires i <= |steps|
    requires forall m, k :: query(m, k).calls == [Predict(target, m, api)]
    requires calls == PredictCalls(target, sent, api)
    decreases |steps| - i
    ensures var t := Talk(steps, i, query, calls, sent, replies);
      t.calls == PredictCalls(target, t.sent, api)
  {
    if i < |steps| {
      match steps[i]
      case Halt(_) =>
      case Skip => TalkCalls(steps, i + 1, query, calls, sent, replies, target, api);
      case Send(m) =>
        var q := query(m, |sent|);
        assert PredictCalls(target, sent + [m], api) == calls + q.calls;
        TalkCalls(steps, i + 1, query, calls + q.calls, sent + [m], replies + [q.result], target, api);
    }
  }

  /** The k-th reply is what the k-th query sent did. */
  lemma {:induction false} TalkReplies<E>(steps: seq<Step>, i: nat, query: (string, nat) -> Attempt<string, E>,
                                          calls: seq<RemoteCall>, sent: seq<string>, replies: seq<Result<string, E>>)
    requires i <= |steps|
    requires |replies| == |sent|
    requires forall k :: 0 <= k < |sent| ==> replies[k] == query(sent[k], k).result
    decreases |steps| - i
    ensures var t := Talk(steps, i, query, calls, sent, replies);
      && |t.replies| == |t.sent|
      && forall k :: 0 <= k < |t.sent| ==> t.replies[k] == query(t.sent[k], k).result
  {
    if i < |steps| {
      match steps[i]
      case Halt(_) =>
      case Skip => TalkReplies(steps, i + 1, query, calls, sent, replies);
      case Send(m) =>
        var q := query(m, |sent|);
        TalkReplies(steps, i + 1, query, calls + q.calls, sent + [m], replies + [q.result]);
    }
  }

  /** The loop both `chat` commands run once connected: read the prompts in
      order, stop at the first that ends the loop, skip blank lines and send
      every other line as one query, whatever the query does. `steps` is what
      each prompt does; `query(m, k)` sends `m` as the k-th query. */
  method Converse<E>(steps: seq<Step>, query: (string, nat) -> Attempt<string, E>) returns (t: Transcript<E>)
    ensures t == Talk(steps, 0, query, [], [], [])
  {
    var calls, sent, replies := [], [], [];
    var i := 0;
    while i < |steps|
      invariant 0 <= i <= |steps|
      invariant Talk(steps, i, query, calls, sent, replies) == Talk(steps, 0, query, [], [], [])
    {
      match steps[i] {
        case Halt(reason) =>
          return Transcript(calls, sent, replies, reason);
        case Skip =>
        case Send(m) =>
          var q := query(m, |sent|);
          calls, sent, replies := calls + q.calls, sent + [m], replies + [q.result];
      }
      i := i + 1;
    }
    return Transcript(calls, sent, replies, InputClosed);
  }
}
