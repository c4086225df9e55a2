# Hunyuan Portal in Dafny

Hunyuan Portal is a thin front end to the Hunyuan model, which runs in a Gradio Space. This model covers four parts of it:

- the shared core, which opens a Gradio client and sends one query;
- the packaged command-line tool: `chat`, `ask` and their helpers;
- the older single-file script `hunyuan.py`: its own query and connection helpers and its own `chat` and `ask`;
- the Flask web application's three handlers (`/`, `/ask`, `/chat`) and the per-browser session record they update.

The remote library is never modelled. Two parameters say what it did, and each operation records the calls it made in a trace:

- `Gradio.ConnectOutcome` says what creating a client did;
- `Gradio.CallOutcome` says what a `predict` call did: it returned a value, `None`, a network failure or another failure.

This makes properties such as "no call is made", "exactly one `predict`" and "the endpoint is forwarded unchanged" statable.

Modules:

- `Base`: `Option` and `Result`.
- `Text`: Python's `str.strip` over the exact `str.isspace` character set, and lower-casing.
- `Gradio`: the library boundary.
- `Client`: `core/client.py`, the error taxonomy and the `None` → `""` normalisation.
- `ChatInput`: how both interactive `chat` loops treat one prompt. Specification functions (`Sent`, `StopOf`) give the queries a whole input sends and why the loop stops. `Talk` mirrors the loop and `Converse` runs it.
- `Commands`: results shared by the two command-line tools.
- `Cli`: `cli/main.py`.
- `LegacyCli`: `hunyuan.py`.
- `WebApp`: `web/app.py`.
  - Each handler is a pure step function from the old session, the form and the library outcomes to the new session, the flashed messages and the calls made.
  - The class `App` holds the four session keys as fields. Its methods update them key by key, as the handlers do, and are proved equal to the step functions.
  - `Run` folds a sequence of requests. The lemmas over `Run` prove what holds across requests.

Markdown rendering is an uninterpreted `render` function with two profiles: user messages, and model responses with code highlighting. `uuid4` becomes a `freshId` parameter.

The web chat handler is not all-or-nothing:

- Rebinding to a new URL happens first. The history is emptied and the new URL bound before any connection is attempted. A failed connection does not restore the old URL or history.
- A failed chat turn is recorded. The user entry is appended before connecting, so a failure leaves that entry with no bot entry after it.
- A clear request also binds the form URL.
- An empty form URL that differs from the bound one still empties the history and binds the empty URL, and only then is it rejected.

## Model

| member | source | states |
|---|---|---|
| Text.StripSpec | src/hunyuan_app/cli/main.py:154 | `strip` removes a maximal run of whitespace at each end and keeps the middle unchanged: the kept part starts and ends with a non-space character |
| Text.Strip | src/hunyuan_app/cli/main.py:154 | Python's `str.strip`; its meaning is stated by `Text.StripSpec`, `Text.StripEmptyIff` and `Text.StripIdempotent` |
| Text.StripEmptyIff | src/hunyuan_app/cli/main.py:158 | a line is empty after stripping exactly when it is all whitespace |
| Text.StripIdempotent | src/hunyuan_app/cli/main.py:154 | stripping twice is stripping once |
| Text.Lower | src/hunyuan_app/cli/main.py:155 | lower-casing keeps the length and maps each character independently |
| Client.ConnectClient | src/hunyuan_app/core/client.py:31-55 | one connection attempt; either a handle on the URL or a `ConnectionSetupError`, whatever the failure; the message is exactly "Could not initialize client for '", the URL, "'. Reason: " and the cause |
| Client.NormalizeResponse | src/hunyuan_app/core/client.py:87 | `None` becomes the empty string and a present response is kept as it is |
| Client.QueryModel | src/hunyuan_app/core/client.py:58-98 | exactly one `predict` on the handle's target with the endpoint unchanged; success iff the call returned, with a never-`None` string; a network failure becomes `ConnectionError` and anything else `PredictionError`, never a setup error; the message is the kind's prefix followed by the cause |
| Client.QueryErrorReadable | src/hunyuan_app/core/client.py:89-98 | the two failure prefixes cannot be confused, so an error's kind can be read back from its message |
| ChatInput.ActionSpec | src/hunyuan_app/cli/main.py:153-165 | a line stops the loop iff stripped and lower-cased it is `exit` or `quit`; otherwise it is skipped iff it is all whitespace; otherwise exactly one query is sent, stripped (packaged CLI) or as typed (older script), and never blank |
| ChatInput.Action | src/hunyuan_app/cli/main.py:153-165 | the handling of one typed line; its behaviour is stated by `ChatInput.ActionSpec` |
| ChatInput.StepOf | src/hunyuan_app/cli/main.py:144-151 | the handling of one prompt: end of input halts, an interrupt halts (caught by the packaged CLI only), a line is `Action`; stated through `ChatInput.StepDialects` and `ChatInput.SentStopsAtEnd` |
| ChatInput.SentStopsAtEnd | src/hunyuan_app/cli/main.py:144-157 | nothing typed after the prompt that ends the loop (quit word, end of input, interrupt) is ever sent |
| ChatInput.SentAppend | src/hunyuan_app/cli/main.py:144-181 | prompts before the end are handled one after another: the queries of a concatenated input are the queries of its parts, in order |
| ChatInput.SentQueriesAreMessages | src/hunyuan_app/cli/main.py:154-165 | every query sent is non-blank and not a quit word, and the packaged CLI sends it already stripped |
| ChatInput.StepDialects | hunyuan.py:120-134 | the older loop halts, skips and sends on exactly the prompts the packaged loop does; the packaged one sends the stripped line |
| ChatInput.PackagedSendsStrippedLegacy | hunyuan.py:127-134 | over a whole input both loops send the same number of queries, and the packaged loop's k-th query is the older loop's k-th query stripped |
| ChatInput.TalkSends | src/hunyuan_app/cli/main.py:144-165 | the loop sends exactly the queries `Sent` prescribes and stops for the reason `StopOf` gives, whatever each query returned |
| ChatInput.TalkCalls | src/hunyuan_app/cli/main.py:163-165 | when each query makes one `predict`, the loop's calls are one `predict` per query sent, in order, on the one client |
| ChatInput.TalkReplies | src/hunyuan_app/cli/main.py:163-179 | one result per query sent, the k-th being what the k-th query returned or raised; a failure does not end the loop |
| ChatInput.Converse | src/hunyuan_app/cli/main.py:144-181 | the `while True` loop with its break and continue computes exactly the transcript `Talk` specifies |
| Cli.InitializeClient | src/hunyuan_app/cli/main.py:39-74 | one connection attempt; a handle on the URL, or exit code 1 on any failure |
| Cli.QueryWithProgress | src/hunyuan_app/cli/main.py:77-109 | the second normalisation never changes the core's result: calls, response and errors are those of the core query |
| Cli.Chat | src/hunyuan_app/cli/main.py:114-181 | a failed connection makes no `predict` and exits with 1; otherwise one `predict` per query in `Sent(inputs, Packaged)`, in order, each result that query's result, and the stop reason `StopOf(inputs, Packaged)` |
| Cli.Ask | src/hunyuan_app/cli/main.py:184-254 | connect, then exactly one `predict`; exit code 0 iff connected, returned and (no file or the write succeeded); on success exactly one output path: file, else Markdown, else raw |
| LegacyCli.QueryHunyuan | hunyuan.py:38-78 | exactly one `predict` on `/chat`, whether a spinner is shown or not; `None` becomes ""; a network failure stays `ConnectionError` ("Gradio API call failed: " + cause), anything else becomes `RuntimeError` |
| LegacyCli.QueryMatchesCore | hunyuan.py:70-78 | the script's query makes the same call and returns the same response as the core query; its errors correspond kind for kind, and the prediction messages are equal |
| LegacyCli.ConnectClient | hunyuan.py:81-98 | one connection attempt; a handle on the URL, or exit code 1 on any failure |
| LegacyCli.Chat | hunyuan.py:103-151 | a failed connection exits with 1; otherwise one `predict` on `/chat` per query in `Sent(inputs, Legacy)` (lines as typed), each result that query's result, and the stop reason `StopOf(inputs, Legacy)` |
| LegacyCli.Ask | hunyuan.py:154-213 | connect, then exactly one `predict`; exit code 0 iff everything succeeded; on success exactly one output path: file, else Markdown, else raw |
| WebApp.Consult | src/hunyuan_app/web/app.py:99-108 | connect, then query on `/chat` only if connected; success iff both succeed; on failure the error is the one the failing step raised: the connection's setup error if it failed, else the query's error |
| WebApp.ChatTurn | src/hunyuan_app/web/app.py:134-217 | `handle_chat` as a step function; its behaviour is stated by `WebApp.ChatTurnBinds`, `WebApp.ChatTurnRejects`, `WebApp.ChatTurnSends` and `WebApp.ChatTurnCoherent` |
| WebApp.ChatTurnBinds | src/hunyuan_app/web/app.py:138-160 | after any chat request the bound URL is the stripped form URL, the id is set if missing and kept otherwise, and the stored ask response is untouched |
| WebApp.ChatTurnRejects | src/hunyuan_app/web/app.py:156-175 | a clear request, or an empty URL or message, makes no call and adds no entry; the history is emptied on a clear or a changed URL and kept otherwise; one flash: cleared (info), else empty URL (warning), else empty message (warning) |
| WebApp.ChatTurnSends | src/hunyuan_app/web/app.py:177-210 | an accepted message adds the user entry and then, only on success, the bot entry holding the rendered response; on failure only the user entry, and one danger flash "Error: " + the error's message |
| WebApp.ChatTurnCoherent | src/hunyuan_app/web/app.py:155-202 | a chat request keeps every bot entry directly after a user entry and never leaves a history without a bound URL |
| WebApp.AskTurn | src/hunyuan_app/web/app.py:75-131 | never touches the chat URL or history; an empty URL, then an empty message, is rejected with one warning and nothing changed; otherwise the id is set if missing, then connect and query; only a success stores the rendered response, and a failure flashes the error |
| WebApp.IndexView | src/hunyuan_app/web/app.py:56-72 | the page is given the configured default URL, the stored ask response, the history and the bound URL (the default when none is bound), and the response is removed from the session |
| WebApp.App.constructor | src/hunyuan_app/web/app.py:26 | the default URL is the environment's, else the core default; the session starts empty |
| WebApp.App.HandleChat | src/hunyuan_app/web/app.py:134-217 | updating the session keys step by step leaves exactly the session, flashes and calls of `ChatTurn` |
| WebApp.App.Send | src/hunyuan_app/web/app.py:177-210 | the `try` block: append the user entry, connect to the bound URL, query, and append the bot entry only on success, as `ChatSend` specifies |
| WebApp.App.HandleAsk | src/hunyuan_app/web/app.py:75-131 | updating the session keys step by step leaves exactly the session, flashes and calls of `AskTurn` |
| WebApp.App.Index | src/hunyuan_app/web/app.py:56-72 | popping the ask response leaves exactly the session and view of `IndexView` |
| WebApp.ShownAtMostOnce | src/hunyuan_app/web/app.py:61 | over any sequence of requests, the index pages that showed an ask response plus the one still pending never outnumber the responses stored plus the one pending at the start |
| WebApp.IdNeverReplaced | src/hunyuan_app/web/app.py:91-93 | once a session has an id, no sequence of requests changes it |
| WebApp.RunCoherent | src/hunyuan_app/web/app.py:143-202 | every sequence of requests keeps the history alternating (each bot entry right after a user entry) and bound to a URL |
| WebApp.AskShownOnce | src/hunyuan_app/web/app.py:117 | a successful ask is shown, rendered, by the next index page and not by the one after it |

## Left out

- The Gradio client library: handshake, timeouts, its exception classes. What it does is an outcome parameter.
- A returned value is taken to be the string form `str(response)` already, inside `Gradio.CallOutcome`.
- Console output: Rich `Markdown`, `Rule`, `Progress` spinners, `console.print` and `print_exception`. Only the choice of output path and the exit code are kept.
- Markdown-to-HTML conversion is the uninterpreted `render` parameter.
- Flask plumbing: routing, `redirect`, `url_for`, `render_template`, logging, `session.modified`, the secret key and its warning. Flashes are an output list.
- `uuid.uuid4()` is the `freshId` parameter.
- `os.environ` and `load_dotenv`: the environment's `DEFAULT_GRADIO_URL` is the constructor's argument.
- File output in `ask` (`mkdir`, `write_text`, `IOError`): only whether the write succeeds (`writeSucceeds`) and the resulting exit code are kept.
- `web/runner.py` (process supervision, signals, timeouts) and `hunyuan_shell.py` (a `cmd.Cmd` shell) are not part of this model.
- Concurrent requests on one session are not modelled. Requests are served one at a time.
- Typer argument parsing and the `--version` callback are not modelled.
- Text.Lower: maps ASCII letters only. This is exact for the comparison with `exit` and `quit`, since no other character lower-cases into those ASCII letters alone. It is weaker than Python's full Unicode `str.lower`.
- ChatInput.StepOf: follows the script's handlers as written. Two prompt details inside the click library are not modelled:
  - click turns end of input at `typer.prompt` into an abort;
  - click re-prompts on an empty line.
- Cli.Chat, LegacyCli.Chat: an interrupt during a query, rather than at the prompt, is not modelled. In both tools it passes every `except Exception` and ends the run. Nor are other exceptions from rendering, which the loop reports before going on. A query's result covers only the core's own errors.
- Cli.Ask: the catch-all `except Exception` branch is not modelled. It is reached by a rendering failure, and also by the `typer.Exit(code=1)` raised on a failed file write, since `typer.Exit` subclasses `RuntimeError`. Either way the exit code is 1, which is what the model keeps.
- LegacyCli.Ask: `typer.Exit` subclasses `RuntimeError`, so the file-write exit is caught once more by the `RuntimeError` handler and re-raised. Only the resulting exit code 1 is kept.
- WebApp.ChatTurn: the handler's `except Exception` branch ("An unexpected server error occurred") is not modelled, because `render` cannot fail. The same holds for WebApp.AskTurn.
- An absent `chat_history` key is modelled as the empty history. The handler creates it as `[]`, and `index` reads it with that default.
