/** The chat service. It is a stub: every message receives the same fixed
    reply. */
module GeminiService {

  const OfflineReply: string := "AI Service is currently offline."

  /** `sendMessageToGemini`: resolves at once with the offline notice. */
  function SendMessageToGemini(message: string): string
  {
    OfflineReply
  }

  /** The reply does not depend on the message sent: every message receives
      the same, non-empty offline notice. */
  lemma ReplyIgnoresMessage(a: string, b: string)
    ensures SendMessageToGemini(a) == SendMessageToGemini(b) == OfflineReply != ""
  {
  }
}

/** The terminal-style chat widget: a log of messages, an input field, a
    loading flag and the requests whose replies have not arrived yet. */
module AiChat {
  import opened GeminiService

  /** The characters JavaScript's `String.prototype.trim` removes: the
      ECMAScript WhiteSpace characters (tab, vertical tab, form feed, space,
      no-break space, the byte-order mark and the Unicode space separators)
      and the LineTerminator characters. */
  predicate IsJsSpace(c: char)
  {
    // tab, line feed, vertical tab, form feed, carriage return
    ('\U{9}' <= c <= '\U{D}') ||
    c == ' ' || c == '\U{A0}' || c == '\U{1680}' ||
    // en quad through hair space
    ('\U{2000}' <= c <= '\U{200A}') ||
    // line separator, paragraph separator
    c == '\U{2028}' || c == '\U{2029}' ||
    c == '\U{202F}' || c == '\U{205F}' || c == '\U{3000}' ||
    // byte-order mark
    c == '\U{FEFF}'
  }

  /** Nothing but white space (an empty string included). */
  ghost predicate IsBlank(s: string)
  {
    forall i :: 0 <= i < |s| ==> IsJsSpace(s[i])
  }

  /** `s` without its leading white space. */
  function TrimStart(s: string): (r: string)
    ensures |r| <= |s| && r == s[|s| - |r|..]
    ensures r != [] ==> !IsJsSpace(r[0])
    ensures forall i :: 0 <= i < |s| - |r| ==> IsJsSpace(s[i])
  {
    if s != [] && IsJsSpace(s[0]) then TrimStart(s[1..]) else s
  }

  /** `s` without its trailing white space. */
  function TrimEnd(s: string): (r: string)
    ensures |r| <= |s| && r == s[..|r|]
    ensures r != [] ==> !IsJsSpace(r[|r| - 1])
    ensures forall i :: |r| <= i < |s| ==> IsJsSpace(s[i])
  {
    if s != [] && IsJsSpace(s[|s| - 1]) then TrimEnd(s[..|s| - 1]) else s
  }

  /** `s.trim()`: neither end of the result is white space. */
  function Trim(s: string): (r: string)
    ensures |r| <= |s|
    ensures r != [] ==> !IsJsSpace(r[0]) && !IsJsSpace(r[|r| - 1])
  {
    TrimStart(TrimEnd(s))
  }

  /** `!s.trim()` holds exactly for the strings made only of white space. */
  lemma TrimEmptyIffBlank(s: string)
    ensures Trim(s) == "" <==> IsBlank(s)
  {
    var e := TrimEnd(s);
    if Trim(s) == "" {
      forall i | 0 <= i < |s|
        ensures IsJsSpace(s[i])
      {
        if i < |e| {
          assert s[i] == e[i];
        }
      }
    } else {
      assert e != [];
      assert s[|e| - 1] == e[|e| - 1];
    }
  }

  datatype Role = User | Model

  /** One entry of the log (the optional error flag is never set by the
      widget and is left out). */
  datatype ChatMessage = ChatMessage(role: Role, text: string)

  /** The entry the log starts with. */
  const Greeting: ChatMessage :=
    ChatMessage(Model, "Connected to Vesni_Terminal. Ask me about his stack, projects, or security research. \U{26A1}\U{FE0F}")

  /** The widget's state. `awaiting` lists, oldest first, the messages sent
      to the service whose replies have not been appended yet. */
  datatype ChatState = ChatState(messages: seq<ChatMessage>, input: string, isLoading: bool, awaiting: seq<string>)

  const InitialChat: ChatState := ChatState([Greeting], "", false, [])

  /** The texts of the user's entries in `ms`, in order. */
  function UserTexts(ms: seq<ChatMessage>): seq<string>
  {
    if ms == [] then []
    else UserTexts(ms[..|ms| - 1]) + if ms[|ms| - 1].role == User then [ms[|ms| - 1].text] else []
  }

  /** The number of model entries in `ms`. */
  function ModelCount(ms: seq<ChatMessage>): nat
  {
    if ms == [] then 0
    else ModelCount(ms[..|ms| - 1]) + if ms[|ms| - 1].role == Model then 1 else 0
  }

  /** Appending one entry extends the user texts or the model count by it. */
  lemma AppendEntry(ms: seq<ChatMessage>, m: ChatMessage)
    ensures UserTexts(ms + [m]) == UserTexts(ms) + if m.role == User then [m.text] else []
    ensures ModelCount(ms + [m]) == ModelCount(ms) + if m.role == Model then 1 else 0
  {
    assert (ms + [m])[..|ms|] == ms;
  }

  /** What holds of every reachable state: the log starts with the greeting;
      every model entry after it is a reply of the service; every user entry
      is non-blank; the requests still awaited are the user entries not yet
      answered, in order (replies arrive first in, first out); and the
      loading flag is set only while some request is awaited. */
  ghost predicate ChatInv(st: ChatState)
  {
    |st.messages| >= 1 && st.messages[0] == Greeting &&
    (forall i :: 1 <= i < |st.messages| && st.messages[i].role == Model ==> st.messages[i].text == OfflineReply) &&
    (forall t :: t in UserTexts(st.messages) ==> !IsBlank(t)) &&
    1 <= ModelCount(st.messages) <= |UserTexts(st.messages)| + 1 &&
    st.awaiting == UserTexts(st.messages)[ModelCount(st.messages) - 1..] &&
    (st.isLoading ==> st.awaiting != [])
  }

  lemma InitialChatInv()
    ensures ChatInv(InitialChat)
  {
    AppendEntry([], Greeting);
  }

  /** The input field changes (`onChange`). */
  function Typed(st: ChatState, value: string): ChatState
  {
    st.(input := value)
  }

  /** The synchronous part of `handleSend`: a blank input does nothing;
      otherwise the input is logged as a user entry and sent to the service,
      the field is cleared and the loading flag is set. */
  function Send(st: ChatState): ChatState
  {
    if Trim(st.input) == "" then st
    else ChatState(st.messages + [ChatMessage(User, st.input)], "", true, st.awaiting + [st.input])
  }

  /** The continuation of `handleSend` once the service answers the oldest
      awaited request: the reply is logged and the loading flag cleared. */
  function Reply(st: ChatState): ChatState
    requires st.awaiting != []
  {
    var reply := SendMessageToGemini(st.awaiting[0]);
    ChatState(st.messages + [ChatMessage(Model, reply)], st.input, false, st.awaiting[1..])
  }

  /** The send button is enabled when nothing is loading and the input is not
      blank. */
  predicate SendEnabled(st: ChatState)
  {
    !st.isLoading && Trim(st.input) != ""
  }

  /** A click on the send button, which does nothing while it is disabled. */
  function Click(st: ChatState): ChatState
  {
    if SendEnabled(st) then Send(st) else st
  }

  /** A key press in the input field: Enter sends, whatever the loading flag
      says. */
  function InputKeyDown(st: ChatState, key: string): ChatState
  {
    if key == "Enter" then Send(st) else st
  }

  lemma TypedInv(st: ChatState, value: string)
    requires ChatInv(st)
    ensures ChatInv(Typed(st, value))
  {
  }

  /** Sending keeps the invariant; it either changes nothing (blank input)
      or appends exactly the user's entry to the log and the same text to the
      awaited requests. */
  lemma SendInv(st: ChatState)
    requires ChatInv(st)
    ensures ChatInv(Send(st))
    ensures IsBlank(st.input) ==> Send(st) == st
    ensures !IsBlank(st.input) ==>
      Send(st).messages == st.messages + [ChatMessage(User, st.input)] &&
      Send(st).awaiting == st.awaiting + [st.input] &&
      Send(st).input == "" && Send(st).isLoading
  {
    TrimEmptyIffBlank(st.input);
    if !IsBlank(st.input) {
      var ms, u := st.messages, ChatMessage(User, st.input);
      AppendEntry(ms, u);
      var c := ModelCount(ms);
      assert UserTexts(ms + [u])[c - 1..] == UserTexts(ms)[c - 1..] + [st.input];
    }
  }

  /** A reply keeps the invariant; it appends the service's offline notice,
      answering the oldest awaited request. */
  lemma ReplyInv(st: ChatState)
    requires ChatInv(st) && st.awaiting != []
    ensures ChatInv(Reply(st))
    ensures Reply(st).messages == st.messages + [ChatMessage(Model, OfflineReply)]
    ensures Reply(st).awaiting == st.awaiting[1..] && !Reply(st).isLoading
  {
    var ms, m := st.messages, ChatMessage(Model, OfflineReply);
    AppendEntry(ms, m);
    var c := ModelCount(ms);
    assert UserTexts(ms)[c..] == UserTexts(ms)[c - 1..][1..];
  }

  /** The log only grows: every step keeps what was logged before. */
  lemma LogAppendOnly(st: ChatState, value: string, key: string)
    ensures st.messages <= Typed(st, value).messages
    ensures st.messages <= Send(st).messages
    ensures st.awaiting != [] ==> st.messages <= Reply(st).messages
    ensures st.messages <= Click(st).messages
    ensures st.messages <= InputKeyDown(st, key).messages
  {
  }

  /** One exchange from an idle widget: sending a non-blank input and
      receiving the answer adds exactly two entries, the user's text and the
      offline notice, and leaves the widget idle with an empty field. */
  lemma SendThenReply(st: ChatState)
    requires ChatInv(st) && st.awaiting == [] && !IsBlank(st.input)
    ensures Send(st).awaiting == [st.input]
    ensures Reply(Send(st)) ==
      ChatState(st.messages + [ChatMessage(User, st.input), ChatMessage(Model, OfflineReply)], "", false, [])
  {
    SendInv(st);
    ReplyInv(Send(st));
  }

  /** The button and the Enter key agree while the button is enabled; a
      disabled button does nothing. Enter does not consult the loading flag:
      pressing it with a non-blank input while a reply is awaited sends a
      second request, and the first reply then clears the loading flag while
      the second is still awaited. */
  lemma ButtonAndEnter(st: ChatState)
    requires ChatInv(st)
    ensures SendEnabled(st) ==> Click(st) == InputKeyDown(st, "Enter")
    ensures !SendEnabled(st) ==> Click(st) == st
    ensures st.isLoading && !IsBlank(st.input) ==>
      |InputKeyDown(st, "Enter").awaiting| >= 2 &&
      !Reply(InputKeyDown(st, "Enter")).isLoading &&
      Reply(InputKeyDown(st, "Enter")).awaiting != []
  {
    SendInv(st);
  }

  /** The mounted widget. */
  class ChatWidget {
    var messages: seq<ChatMessage>
    var input: string
    var isLoading: bool
    var awaiting: seq<string>

    function State(): ChatState
      reads this
    {
      ChatState(messages, input, isLoading, awaiting)
    }

    ghost predicate Valid()
      reads this
    {
      ChatInv(State())
    }

    constructor ()
      ensures Valid() && State() == InitialChat
    {
      messages, input, isLoading, awaiting := [Greeting], "", false, [];
      InitialChatInv();
    }

    /** `onChange` of the input field. */
    method OnChange(value: string)
      requires Valid()
      modifies this
      ensures Valid() && State() == Typed(old(State()), value)
    {
      input := value;
      TypedInv(old(State()), value);
    }

    /** `handleSend` up to its `await`. */
    method HandleSend()
      requires Valid()
      modifies this
      ensures Valid() && State() == Send(old(State()))
    {
      SendInv(State());
      if Trim(input) == "" {
        return;
      }
      messages := messages + [ChatMessage(User, input)];
      awaiting := awaiting + [input];
      input := "";
      isLoading := true;
    }

    /** `handleSend` after its `await`, for the oldest request still
        awaited. */
    method ReceiveReply()
      requires Valid() && awaiting != []
      modifies this
      ensures Valid() && State() == Reply(old(State()))
    {
      ReplyInv(State());
      var responseText := SendMessageToGemini(awaiting[0]);
      messages := messages + [ChatMessage(Model, responseText)];
      awaiting := awaiting[1..];
      isLoading := false;
    }

    /** The send button's click handler, disabled while loading or blank. */
    method OnSendClick()
      requires Valid()
      modifies this
      ensures Valid() && State() == Click(old(State()))
    {
      if !isLoading && Trim(input) != "" {
        HandleSend();
      }
    }

    /** The input field's key handler. */
    method OnKeyDown(key: string)
      requires Valid()
      modifies this
      ensures Valid() && State() == InputKeyDown(old(State()), key)
    {
      if key == "Enter" {
        HandleSend();
      }
    }
  }
}
