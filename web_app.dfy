/** The Flask web front end: the `/`, `/ask` and `/chat` handlers and the
    per-browser session record they read and update. Each handler is specified
    by a pure function from the old session (plus the form and what the library
    did) to the new session, the flashed messages and the calls made; the class
    `App` carries the session as fields and its methods update them step by step. */
module WebApp {
  import opened Base
  import opened Text
  import opened Gradio
  import Client

  const ClearedText: string := "Chat history cleared."
  const EmptyUrlText: string := "Gradio URL cannot be empty."
  const EmptyChatMessageText: string := "Please enter a message."
  const EmptyAskMessageText: string := "Message cannot be empty."
  const ErrorPrefix: string := "Error: "

  datatype Role = User | Bot

  /** One chat history entry: who said it and its rendered HTML. */
  datatype Entry = Entry(role: Role, content: string)

  /** The two Markdown configurations: user messages get the `extra` and
      `smarty` extensions, model responses also `fenced_code` and `codehilite`. */
  datatype Profile = MessageProfile | ResponseProfile

  /** The session keys `chat_url`, `chat_history`, `ask_response` and
      `user_unique_id`; an absent history reads as the empty one. */
  datatype SessionState = SessionState(
    chatUrl: Option<string>,
    chatHistory: seq<Entry>,
    askResponse: Option<string>,
    userUniqueId: Option<string>)

  const EmptySession := SessionState(None, [], None, None)

  /** The posted form fields `url` and `message`, and whether `clear_chat` was posted. */
  datatype Form = Form(url: Option<string>, message: Option<string>, clearChat: bool)

  datatype Category = Info | Warning | Danger

  /** A flashed message and its category. */
  datatype Flash = Flash(text: string, category: Category)

  /** What a POST handler leaves behind before redirecting to `/`. */
  datatype Reply = Reply(session: SessionState, flashes: seq<Flash>, calls: seq<RemoteCall>)

  /** What the index page is given to show. */
  datatype View = View(defaultUrl: string, currentChatUrl: string, askResponse: Option<string>, chatHistory: seq<Entry>)

  /** The flash for an error raised by the core. */
  function ErrorFlash(e: Client.ClientError): Flash {
    Flash(ErrorPrefix + e.message, Danger)
  }

  /** The stripped `url` field, the configured default when it is missing. */
  function FormUrl(form: Form, defaultUrl: string): string {
    Strip(form.url.GetOr(defaultUrl))
  }

  /** The stripped `message` field, empty when it is missing. */
  function FormMessage(form: Form): string {
    Strip(form.message.GetOr(""))
  }

  /** The session after `handle_chat`'s bookkeeping: the URL and id keys are
      set when absent, and a changed URL or a clear request empties the
      history and binds the form URL. */
  function ChatPrepared(s: SessionState, url: string, clearChat: bool, freshId: string): SessionState {
    var s1 := s.(chatUrl := if s.chatUrl.None? then Some(url) else s.chatUrl);
    var s2 := s1.(userUniqueId := if s1.userUniqueId.None? then Some(freshId) else s1.userUniqueId);
    if s2.chatUrl != Some(url) || clearChat then s2.(chatHistory := [], chatUrl := Some(url)) else s2
  }

  /** The history a chat turn builds on: none after a clear request or when the
      form names another URL than the bound one, the old one otherwise. */
  function KeptHistory(s: SessionState, url: string, clearChat: bool): seq<Entry> {
    if clearChat || (s.chatUrl.Some? && s.chatUrl.value != url) then [] else s.chatHistory
  }

  /** The id is set once, when it is missing, and never replaced. */
  predicate IdKept(before: SessionState, after: SessionState, freshId: string) {
    after.userUniqueId == (if before.userUniqueId.None? then Some(freshId) else before.userUniqueId)
  }

  /** Connect to `url` and send `message` on `/chat`: what both POST handlers
      do once their input is accepted. */
  function Consult(url: string, message: string, connect: ConnectOutcome, call: CallOutcome)
    : (r: Attempt<string, Client.ClientError>)
    ensures r.calls == [Connect(url)] + (if connect.Connected? then [Predict(url, message, Client.GradioApiEndpoint)] else [])
    ensures r.result.Success? <==> connect.Connected? && call.Returned?
    ensures r.result.Success? ==> r.result.value == Client.NormalizeResponse(call.value)
    // a setup error exactly when the connection failed, else the query's error
    ensures r.result.Failure? ==> (r.result.error.ConnectionSetupError? <==> connect.InitFailed?)
    ensures r.result.Failure? && connect.InitFailed? ==> r.result.error == Client.ConnectClient(url, connect).result.error
    ensures r.result.Failure? && connect.Connected? ==>
      r.result.error == Client.QueryModel(message, Handle(url), Client.GradioApiEndpoint, call).result.error
  {
    var c := Client.ConnectClient(url, connect);
    match c.result
    case Failure(e) => Attempt(c.calls, Failure(e))
    case Success(client) =>
      var q := Client.QueryModel(message, client, Client.GradioApiEndpoint, call);
      Attempt(c.calls + q.calls, q.result)
  }

  /** Whether a chat or ask form is turned away before any call: an empty URL
      or message after stripping. */
  predicate Rejected(form: Form, defaultUrl: string) {
    FormUrl(form, defaultUrl) == [] || FormMessage(form) == []
  }

  /** `handle_chat`. `freshId` is what `uuid4` would give; `render` is the
      Markdown renderer. */
  function ChatTurn(s: SessionState, form: Form, defaultUrl: string, freshId: string,
                    connect: ConnectOutcome, call: CallOutcome, render: (Profile, string) -> string): Reply
  {
    var url := FormUrl(form, defaultUrl);
    var message := FormMessage(form);
    var s1 := ChatPrepared(s, url, form.clearChat, freshId);
    if form.clearChat then Reply(s1, [Flash(ClearedText, Info)], [])
    else if url == [] then Reply(s1, [Flash(EmptyUrlText, Warning)], [])
    else if message == [] then Reply(s1, [Flash(EmptyChatMessageText, Warning)], [])
    else ChatSend(s1, message, connect, call, render)
  }

  /** Whatever a chat turn does, the form URL ends up bound, the id is set if
      it was missing and the stored ask response is left alone. */
  lemma ChatTurnBinds(s: SessionState, form: Form, defaultUrl: string, freshId: string,
                      connect: ConnectOutcome, call: CallOutcome, render: (Profile, string) -> string)
    ensures var r := ChatTurn(s, form, defaultUrl, freshId, connect, call, render);
      && r.session.chatUrl == Some(FormUrl(form, defaultUrl))
      && IdKept(s, r.session, freshId)
      && r.session.askResponse == s.askResponse
  {
  }

  /** A clear request or an empty field: no call, no new entry and one flash,
      the clear request taking precedence, then the URL. */
  lemma ChatTurnRejects(s: SessionState, form: Form, defaultUrl: string, freshId: string,
                        connect: ConnectOutcome, call: CallOutcome, render: (Profile, string) -> string)
    requires form.clearChat || Rejected(form, defaultUrl)
    ensures var r := ChatTurn(s, form, defaultUrl, freshId, connect, call, render);
      && r.calls == []
      && r.session.chatHistory == KeptHistory(s, FormUrl(form, defaultUrl), form.clearChat)
      && r.flashes == [if form.clearChat then Flash(ClearedText, Info)
                       else if FormUrl(form, defaultUrl) == [] then Flash(EmptyUrlText, Warning)
                       else Flash(EmptyChatMessageText, Warning)]
  {
  }

  /** An accepted message: the user entry is added first, then the bot entry
      only when the connection and the query both succeed; a failure is
      flashed and leaves the user entry unanswered. */
  lemma ChatTurnSends(s: SessionState, form: Form, defaultUrl: string, freshId: string,
                      connect: ConnectOutcome, call: CallOutcome, render: (Profile, string) -> string)
    requires !form.clearChat && !Rejected(form, defaultUrl)
    ensures var r := ChatTurn(s, form, defaultUrl, freshId, connect, call, render);
      var url, message := FormUrl(form, defaultUrl), FormMessage(form);
      var a := Consult(url, message, connect, call);
      var user := Entry(User, render(MessageProfile, message));
      && r.calls == a.calls
      && (a.result.Success? ==>
            && r.session.chatHistory == KeptHistory(s, url, false) + [user, Entry(Bot, render(ResponseProfile, a.result.value))]
            && r.flashes == [])
      && (a.result.Failure? ==>
            && r.session.chatHistory == KeptHistory(s, url, false) + [user]
            && r.flashes == [ErrorFlash(a.result.error)])
  {
  }

  /** The accepted part of `handle_chat`: record the user entry, then connect
      to the bound URL and query; only a success records the bot entry. */
  function ChatSend(s: SessionState, message: string, connect: ConnectOutcome, call: CallOutcome,
                    render: (Profile, string) -> string): Reply
    requires s.chatUrl.Some?
  {
    // the user entry goes in before the connection is even attempted
    var s1 := s.(chatHistory := s.chatHistory + [Entry(User, render(MessageProfile, message))]);
    var a := Consult(s.chatUrl.value, message, connect, call);
    match a.result
    case Failure(e) => Reply(s1, [ErrorFlash(e)], a.calls)
    case Success(raw) =>
      Reply(s1.(chatHistory := s1.chatHistory + [Entry(Bot, render(ResponseProfile, raw))]), [], a.calls)
  }

  /** Whether an ask form leads to a stored response. */
  predicate AskStores(form: Form, defaultUrl: string, connect: ConnectOutcome, call: CallOutcome) {
    !Rejected(form, defaultUrl) && connect.Connected? && call.Returned?
  }

  /** `handle_ask`: validate, make sure of the id, then connect and query; only
      a success stores (the rendered) response. */
  function AskTurn(s: SessionState, form: Form, defaultUrl: string, freshId: string,
                   connect: ConnectOutcome, call: CallOutcome, render: (Profile, string) -> string): (r: Reply)
    // the chat side of the session is never touched
    ensures r.session.chatUrl == s.chatUrl && r.session.chatHistory == s.chatHistory
    // an empty field: nothing changes, no call, one warning
    ensures Rejected(form, defaultUrl) ==>
      && r.session == s && r.calls == []
      && r.flashes == [Flash(if FormUrl(form, defaultUrl) == [] then EmptyUrlText else EmptyAskMessageText, Warning)]
    ensures !Rejected(form, defaultUrl) ==>
      var a := Consult(FormUrl(form, defaultUrl), FormMessage(form), connect, call);
      && IdKept(s, r.session, freshId)
      && r.calls == a.calls
      && (a.result.Success? ==> r.flashes == [])
      && (a.result.Failure? ==> r.flashes == [ErrorFlash(a.result.error)])
    // the stored response changes only on success, to the rendered response
    ensures r.session.askResponse ==
      if AskStores(form, defaultUrl, connect, call)
      then Some(render(ResponseProfile, Client.NormalizeResponse(call.value)))
      else s.askResponse
  {
    var url := FormUrl(form, defaultUrl);
    var message := FormMessage(form);
    if url == [] then Reply(s, [Flash(EmptyUrlText, Warning)], [])
    else if message == [] then Reply(s, [Flash(EmptyAskMessageText, Warning)], [])
    else
      var s1 := s.(userUniqueId := if s.userUniqueId.None? then Some(freshId) else s.userUniqueId);
      var a := Consult(url, message, connect, call);
      match a.result
      case Failure(e) => Reply(s1, [ErrorFlash(e)], a.calls)
      case Success(raw) => Reply(s1.(askResponse := Some(render(ResponseProfile, raw))), [], a.calls)
  }

  /** `index`: pop the stored ask response and show it with the history and
      the bound URL (the default when none is bound). */
  function IndexView(s: SessionState, defaultUrl: string): (r: (SessionState, View))
    // shown once: the response is gone from the session afterwards
    ensures r.0 == s.(askResponse := None)
    ensures r.1.defaultUrl == defaultUrl
    ensures r.1.askResponse == s.askResponse && r.1.chatHistory == s.chatHistory
    ensures s.chatUrl.Some? ==> r.1.currentChatUrl == s.chatUrl.value
    ensures s.chatUrl.None? ==> r.1.currentChatUrl == defaultUrl
  {
    (s.(askResponse := None), View(defaultUrl, s.chatUrl.GetOr(defaultUrl), s.askResponse, s.chatHistory))
  }

  /** Every bot entry directly answers a user entry. */
  predicate Alternates(h: seq<Entry>) {
    forall k :: 0 <= k < |h| && h[k].role == Bot ==> 0 < k && h[k - 1].role == User
  }

  /** What every handler keeps true of a session: the history is well formed
      and there is no history without a bound URL. */
  predicate Coherent(s: SessionState) {
    Alternates(s.chatHistory) && (s.chatHistory != [] ==> s.chatUrl.Some?)
  }

  lemma AppendAlternates(h: seq<Entry>, tail: seq<Entry>)
    requires Alternates(h) && Alternates(tail)
    requires tail != [] ==> tail[0].role == User
    ensures Alternates(h + tail)
  {
    var g := h + tail;
    forall k | 0 <= k < |g| && g[k].role == Bot ensures 0 < k && g[k - 1].role == User {
      if k >= |h| {
        assert g[k] == tail[k - |h|];
        if k > |h| { assert g[k - 1] == tail[k - 1 - |h|]; }
      } else {
        assert g[k] == h[k] && g[k - 1] == h[k - 1];
      }
    }
  }

  /** A chat turn keeps the session coherent. */
  lemma ChatTurnCoherent(s: SessionState, form: Form, defaultUrl: string, freshId: string,
                         connect: ConnectOutcome, call: CallOutcome, render: (Profile, string) -> string)
    requires Coherent(s)
    ensures Coherent(ChatTurn(s, form, defaultUrl, freshId, connect, call, render).session)
  {
    var r := ChatTurn(s, form, defaultUrl, freshId, connect, call, render);
    var url := FormUrl(form, defaultUrl);
    var kept := KeptHistory(s, url, form.clearChat);
    assert Alternates(kept);
    ChatTurnBinds(s, form, defaultUrl, freshId, connect, call, render);
    if form.clearChat || Rejected(form, defaultUrl) {
      ChatTurnRejects(s, form, defaultUrl, freshId, connect, call, render);
    } else {
      ChatTurnSends(s, form, defaultUrl, freshId, connect, call, render);
      var a := Consult(url, FormMessage(form), connect, call);
      var user := Entry(User, render(MessageProfile, FormMessage(form)));
      if a.result.Success? {
        AppendAlternates(kept, [user, Entry(Bot, render(ResponseProfile, a.result.value))]);
      } else {
        AppendAlternates(kept, [user]);
      }
    }
  }

  /** The session of one browser, as the handlers see it. `defaultUrl` is fixed
      when the application starts. */
  class App {
    const defaultUrl: string
    var chatUrl: Option<string>
    var chatHistory: seq<Entry>
    var askResponse: Option<string>
    var userUniqueId: Option<string>

    function State(): SessionState
      reads this
    {
      SessionState(chatUrl, chatHistory, askResponse, userUniqueId)
    }

    /** A new session; the default URL comes from `DEFAULT_GRADIO_URL` in the
        environment, else the core default. */
    constructor(environmentUrl: Option<string>)
      ensures defaultUrl == environmentUrl.GetOr(Client.DefaultGradioUrl)
      ensures State() == EmptySession
    {
      defaultUrl := environmentUrl.GetOr(Client.DefaultGradioUrl);
      chatUrl, chatHistory, askResponse, userUniqueId := None, [], None, None;
    }

    /** `handle_chat`, updating the session key by key as the handler does. */
    method HandleChat(form: Form, freshId: string, connect: ConnectOutcome, call: CallOutcome,
                      render: (Profile, string) -> string)
      returns (flashes: seq<Flash>, calls: seq<RemoteCall>)
      modifies this
      ensures Reply(State(), flashes, calls) == ChatTurn(old(State()), form, defaultUrl, freshId, connect, call, render)
    {
      var url := FormUrl(form, defaultUrl);
      var message := FormMessage(form);
      ghost var prepared := ChatPrepared(State(), url, form.clearChat, freshId);
      flashes, calls := [], [];
      if chatUrl.None? {
        chatUrl := Some(url);
      }
      if userUniqueId.None? {
        userUniqueId := Some(freshId);
      }
      if chatUrl != Some(url) || form.clearChat {
        chatHistory := [];
        chatUrl := Some(url);
        if form.clearChat {
          assert State() == prepared;
          flashes := [Flash(ClearedText, Info)];
          return;
        }
      }
      assert State() == prepared;
      if url == [] {
        flashes := [Flash(EmptyUrlText, Warning)];
        return;
      }
      if message == [] {
        flashes := [Flash(EmptyChatMessageText, Warning)];
        return;
      }
      flashes, calls := Send(message, connect, call, render);
    }

    /** The `try` block of `handle_chat`. */
    method Send(message: string, connect: ConnectOutcome, call: CallOutcome, render: (Profile, string) -> string)
      returns (flashes: seq<Flash>, calls: seq<RemoteCall>)
      requires chatUrl.Some?
      modifies this
      ensures Reply(State(), flashes, calls) == ChatSend(old(State()), message, connect, call, render)
    {
      flashes := [];
      chatHistory := chatHistory + [Entry(User, render(MessageProfile, message))];
      var c := Client.ConnectClient(chatUrl.value, connect);
      calls := c.calls;
      if c.result.Failure? {
        flashes := [ErrorFlash(c.result.error)];
        return;
      }
      var q := Client.QueryModel(message, c.result.value, Client.GradioApiEndpoint, call);
      calls := calls + q.calls;
      match q.result {
        case Failure(e) =>
          flashes := [ErrorFlash(e)];
        case Success(raw) =>
          chatHistory := chatHistory + [Entry(Bot, render(ResponseProfile, raw))];
      }
    }

    /** `handle_ask`, updating the session key by key as the handler does. */
    method HandleAsk(form: Form, freshId: string, connect: ConnectOutcome, call: CallOutcome,
                     render: (Profile, string) -> string)
      returns (flashes: seq<Flash>, calls: seq<RemoteCall>)
      modifies this
      ensures Reply(State(), flashes, calls) == AskTurn(old(State()), form, defaultUrl, freshId, connect, call, render)
    {
      var url := FormUrl(form, defaultUrl);
      var message := FormMessage(form);
      flashes, calls := [], [];
      if url == [] {
        flashes := [Flash(EmptyUrlText, Warning)];
        return;
      }
      if message == [] {
        flashes := [Flash(EmptyAskMessageText, Warning)];
        return;
      }
      if userUniqueId.None? {
        userUniqueId := Some(freshId);
      }
      var c := Client.ConnectClient(url, connect);
      calls := c.calls;
      if c.result.Failure? {
        flashes := [ErrorFlash(c.result.error)];
        return;
      }
      var q := Client.QueryModel(message, c.result.value, Client.GradioApiEndpoint, call);
      calls := calls + q.calls;
      match q.result {
        case Failure(e) =>
          flashes := [ErrorFlash(e)];
        case Success(raw) =>
          askResponse := Some(render(ResponseProfile, raw));
      }
    }

    /** `index`: pops the stored ask response. */
    method Index() returns (view: View)
      modifies this
      ensures (State(), view) == IndexView(old(State()), defaultUrl)
    {
      var shown := askResponse;
      askResponse := None;
      view := View(defaultUrl, chatUrl.GetOr(defaultUrl), shown, chatHistory);
    }
  }

  /** One request of a browser session, with what the library and `uuid4`
      would do while serving it. */
  datatype Request =
    | ChatPost(form: Form, freshId: string, connect: ConnectOutcome, call: CallOutcome)
    | AskPost(form: Form, freshId: string, connect: ConnectOutcome, call: CallOutcome)
    | IndexGet

  /** The session after a run of requests, how many ask responses were stored
      and how many index pages showed one. */
  datatype Tally = Tally(last: SessionState, stored: nat, shown: nat)

  function Pending(s: SessionState): nat {
    if s.askResponse.Some? then 1 else 0
  }

  function Run(s: SessionState, reqs: seq<Request>, defaultUrl: string, render: (Profile, string) -> string): Tally
    decreases |reqs|
  {
    if reqs == [] then Tally(s, 0, 0)
    else
      var rest := reqs[1..];
      match reqs[0]
      case ChatPost(form, freshId, connect, call) =>
        Run(ChatTurn(s, form, defaultUrl, freshId, connect, call, render).session, rest, defaultUrl, render)
      case AskPost(form, freshId, connect, call) =>
        var t := Run(AskTurn(s, form, defaultUrl, freshId, connect, call, render).session, rest, defaultUrl, render);
        t.(stored := t.stored + if AskStores(form, defaultUrl, connect, call) then 1 else 0)
      case IndexGet =>
        var t := Run(IndexView(s, defaultUrl).0, rest, defaultUrl, render);
        t.(shown := t.shown + Pending(s))
  }

  /** Each stored ask response is shown at most once: the pages that showed
      one, plus the one still pending, never outnumber the responses stored
      plus the one pending at the start. */
  lemma {:induction false} ShownAtMostOnce(s: SessionState, reqs: seq<Request>, defaultUrl: string,
                                           render: (Profile, string) -> string)
    ensures var t := Run(s, reqs, defaultUrl, render);
      t.shown + Pending(t.last) <= t.stored + Pending(s)
    decreases |reqs|
  {
    if reqs != [] {
      match reqs[0]
      case ChatPost(form, freshId, connect, call) =>
        ShownAtMostOnce(ChatTurn(s, form, defaultUrl, freshId, connect, call, render).session, reqs[1..], defaultUrl, render);
      case AskPost(form, freshId, connect, call) =>
        ShownAtMostOnce(AskTurn(s, form, defaultUrl, freshId, connect, call, render).session, reqs[1..], defaultUrl, render);
      case IndexGet =>
        ShownAtMostOnce(IndexView(s, defaultUrl).0, reqs[1..], defaultUrl, render);
    }
  }

  /** Once a session has an id, no request replaces it. */
  lemma {:induction false} IdNeverReplaced(s: SessionState, reqs: seq<Request>, defaultUrl: string,
                                           render: (Profile, string) -> string)
    requires s.userUniqueId.Some?
    ensures Run(s, reqs, defaultUrl, render).last.userUniqueId == s.userUniqueId
    decreases |reqs|
  {
    if reqs != [] {
      match reqs[0]
      case ChatPost(form, freshId, connect, call) =>
        IdNeverReplaced(ChatTurn(s, form, defaultUrl, freshId, connect, call, render).session, reqs[1..], defaultUrl, render);
      case AskPost(form, freshId, connect, call) =>
        IdNeverReplaced(AskTurn(s, form, defaultUrl, freshId, connect, call, render).session, reqs[1..], defaultUrl, render);
      case IndexGet =>
        IdNeverReplaced(IndexView(s, defaultUrl).0, reqs[1..], defaultUrl, render);
    }
  }

  /** Every run of requests keeps the session coherent. */
  lemma {:induction false} RunCoherent(s: SessionState, reqs: seq<Request>, defaultUrl: string,
                                       render: (Profile, string) -> string)
    requires Coherent(s)
    ensures Coherent(Run(s, reqs, defaultUrl, render).last)
    decreases |reqs|
  {
    if reqs != [] {
      match reqs[0]
      case ChatPost(form, freshId, connect, call) =>
        ChatTurnCoherent(s, form, defaultUrl, freshId, connect, call, render);
        RunCoherent(ChatTurn(s, form, defaultUrl, freshId, connect, call, render).session, reqs[1..], defaultUrl, render);
      case AskPost(form, freshId, connect, call) =>
        RunCoherent(AskTurn(s, form, defaultUrl, freshId, connect, call, render).session, reqs[1..], defaultUrl, render);
      case IndexGet =>
        RunCoherent(IndexView(s, defaultUrl).0, reqs[1..], defaultUrl, render);
    }
  }

  /** An ask that succeeds is shown by the next index page, and only by that one. */
  lemma AskShownOnce(s: SessionState, form: Form, defaultUrl: string, freshId: string,
                     connect: ConnectOutcome, call: CallOutcome, render: (Profile, string) -> string)
    requires AskStores(form, defaultUrl, connect, call)
    ensures var first := IndexView(AskTurn(s, form, defaultUrl, freshId, connect, call, render).session, defaultUrl);
      && first.1.askResponse == Some(render(ResponseProfile, Client.NormalizeResponse(call.value)))
      && IndexView(first.0, defaultUrl).1.askResponse == None
  {
  }
}
