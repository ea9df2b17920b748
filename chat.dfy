/** The chat screen's session client: the conversation, the input box, the two in-flight flags and
    the rotating loading placeholder, with `handleSubmit` split at its `await` into the part that
    runs when the user submits and the part that runs when the agent call settles. */
module Chat {
  import opened Wrappers
  import opened JsText
  import opened Normalize

  datatype Role = User | Assistant

  /** One entry of the conversation; `id` is the opaque value `crypto.randomUUID()` produced. */
  datatype Message = Message(id: string, role: Role, content: string)

  /** `LOADING_MESSAGES`: the placeholders shown in turn while a reply is awaited. */
  const LoadingMessages: seq<string> := [
    "Thinking...",
    "Gathering information...",
    "Analyzing your question...",
    "Preparing response...",
    "Processing data...",
    "Searching knowledge base..."
  ]

  /** The text shown whenever the agent gives no usable reply. */
  const Fallback: string := "Sorry, I am unable to process your request."

  /** How the agent call settled: it threw (`Fail`), or it returned a body in which the path
      `outputs[0].outputs[0].messages[0].message` holds a string (`Ok(Some(text))`), or is missing
      or holds a falsy non-string value such as `null`, `0` or `false` (`Ok(None)`); the `||` treats
      all of those like a missing reply. */
  datatype Outcome = Fail | Ok(reply: Option<string>)

  /** The JSON body of the POST to the agent endpoint. */
  datatype Request = Request(outputType: string, inputType: string, inputValue: string, sessionId: string)

  /** The component's state: `messages`, `input`, `isSending`, `loading`, `loadingMessageIndex`. */
  datatype ChatState = ChatState(
    messages: seq<Message>,
    input: string,
    isSending: bool,
    loading: bool,
    loadingIndex: nat)

  /** The state when the chat screen mounts. */
  function Initial(): (s: ChatState)
    ensures WellFormed(s) && s.messages == [] && !Accepts(s)
  {
    ChatState([], "", false, false, 0)
  }

  /** What a user message may hold: the trimmed, non-empty input. */
  predicate IsUserText(content: string) {
    content != [] && Trim(content) == content
  }

  /** The conversation alternates user and assistant messages, every user message but a pending
      last one is answered, both flags move together, the input box is empty while sending and the
      placeholder index is in range and at 0 when not loading. */
  predicate WellFormed(s: ChatState) {
    && s.isSending == s.loading
    && s.loadingIndex < |LoadingMessages|
    && (!s.loading ==> s.loadingIndex == 0)
    && (s.isSending ==> s.input == "")
    && |s.messages| % 2 == (if s.isSending then 1 else 0)
    && Alternating(s.messages)
    && UserTextsTrimmed(s.messages)
  }

  /** User messages sit at even positions, assistant messages at odd ones. */
  predicate Alternating(messages: seq<Message>) {
    forall i :: 0 <= i < |messages| ==> messages[i].role == (if i % 2 == 0 then User else Assistant)
  }

  predicate UserTextsTrimmed(messages: seq<Message>) {
    forall i :: 0 <= i < |messages| && messages[i].role == User ==> IsUserText(messages[i].content)
  }

  /** The guard of `handleSubmit`: a non-blank input and no request in flight. */
  predicate Accepts(s: ChatState)
    ensures Accepts(s) <==> !AllTrimmable(s.input) && !s.isSending
  {
    Trim(s.input) != [] && !s.isSending
  }

  /** The synchronous part of `handleSubmit`. */
  function Submitted(s: ChatState, id: string): (t: ChatState)
    ensures |t.messages| == |s.messages| + (if Accepts(s) then 1 else 0)
    ensures t.messages[..|s.messages|] == s.messages
    ensures Accepts(s) ==> t.messages[|s.messages|].role == User && IsUserText(t.messages[|s.messages|].content)
    ensures Accepts(s) ==> t.isSending && t.loading && t.input == ""
    ensures t.loadingIndex == s.loadingIndex
    ensures !Accepts(s) ==> t == s
  {
    TrimIdempotent(s.input);
    if !Accepts(s) then s
    else s.(messages := s.messages + [Message(id, User, Trim(s.input))],
            input := "", isSending := true, loading := true)
  }

  /** The body posted for an accepted submit. */
  function RequestFor(s: ChatState, sessionId: string): (r: Request)
    ensures r.outputType == "chat" && r.inputType == "chat" && r.sessionId == sessionId
    ensures Accepts(s) ==> IsUserText(r.inputValue)
  {
    TrimIdempotent(s.input);
    Request("chat", "chat", Trim(s.input), sessionId)
  }

  /** The content of the assistant message appended when the call settles: the normalised reply,
      or the fallback when the call threw or the reply is missing or empty. */
  function ReplyContent(o: Outcome): (content: string)
    ensures o.Fail? || o.reply.None? || o.reply == Some("") ==> content == Fallback
    ensures o.Ok? && o.reply.Some? && o.reply.value != "" ==>
              content == NormalizeAssistantMessage(o.reply.value)
  {
    FallbackIsNormal();
    match o
    case Fail => Fallback
    case Ok(reply) =>
      var raw := if reply.Some? && reply.value != "" then reply.value else Fallback;
      NormalizeAssistantMessage(raw)
  }

  /** The fallback text has no escapes and no wrapping quotes, so normalising it keeps it. */
  lemma FallbackIsNormal()
    ensures NormalizeAssistantMessage(Fallback) == Fallback
  {
    ReplaceNoBackslash(Fallback);
  }

  /** The continuation of `handleSubmit` after the agent call settles (try, catch and finally),
      together with the effect that puts the placeholder index back to 0 once `loading` is false. */
  function Resolved(s: ChatState, id: string, o: Outcome): (t: ChatState)
    requires s.isSending
    ensures exists answer: Message :: answer.role == Assistant && t.messages == s.messages + [answer]
    ensures !t.isSending && !t.loading && t.loadingIndex == 0 && t.input == s.input
  {
    s.(messages := s.messages + [Message(id, Assistant, ReplyContent(o))],
       isSending := false, loading := false, loadingIndex := 0)
  }

  /** One firing of the interval that runs while `loading`. */
  function Ticked(s: ChatState): (t: ChatState)
    ensures t.(loadingIndex := s.loadingIndex) == s
    ensures s.loadingIndex < |LoadingMessages| ==> t.loadingIndex < |LoadingMessages|
    ensures !s.loading ==> t == s
  {
    if s.loading then s.(loadingIndex := (s.loadingIndex + 1) % |LoadingMessages|) else s
  }

  /** The text area's `onChange`; the text area is disabled while sending. */
  function Typed(s: ChatState, text: string): (t: ChatState)
    ensures t.(input := s.input) == s
    ensures !s.isSending ==> t.input == text
    ensures s.isSending ==> t == s
  {
    if s.isSending then s else s.(input := text)
  }

  /** What can happen to the chat screen. */
  datatype Event = Type(text: string) | Submit(id: string) | Settle(id: string, outcome: Outcome) | Tick

  /** A settlement only exists for a request in flight; otherwise nothing happens. */
  function Step(s: ChatState, e: Event): ChatState {
    match e
    case Type(text) => Typed(s, text)
    case Submit(id) => Submitted(s, id)
    case Settle(id, o) => if s.isSending then Resolved(s, id, o) else s
    case Tick => Ticked(s)
  }

  function Run(s: ChatState, events: seq<Event>): ChatState
    decreases |events|
  {
    if events == [] then s else Run(Step(s, events[0]), events[1..])
  }

  function Ticks(s: ChatState, n: nat): ChatState {
    if n == 0 then s else Ticked(Ticks(s, n - 1))
  }

  // ---------------------------------------------------------------------------------------------
  // Properties of the transitions

  /** A blank or whitespace-only input, or a submit while a request is in flight, changes nothing. */
  lemma RejectedSubmitChangesNothing(s: ChatState, id: string)
    requires AllTrimmable(s.input) || s.isSending
    ensures Submitted(s, id) == s
  {
  }

  /** An accepted submit appends exactly one user message holding the trimmed input, keeps the
      earlier messages as a prefix, empties the input and raises both flags. */
  lemma AcceptedSubmit(s: ChatState, id: string)
    requires !AllTrimmable(s.input) && !s.isSending
    ensures var t := Submitted(s, id);
      && |t.messages| == |s.messages| + 1
      && t.messages[..|s.messages|] == s.messages
      && t.messages[|s.messages|] == Message(id, User, Trim(s.input))
      && IsUserText(t.messages[|s.messages|].content)
      && t.input == "" && t.isSending && t.loading && t.loadingIndex == s.loadingIndex
  {
    TrimIdempotent(s.input);
  }

  /** The posted `input_value` is the content of the user message just appended, and the posted
      session is the conversation's. */
  lemma RequestMatchesUserMessage(s: ChatState, id: string, sessionId: string)
    requires Accepts(s)
    ensures var req := RequestFor(s, sessionId);
      && req.inputValue == Submitted(s, id).messages[|s.messages|].content
      && req.outputType == "chat" && req.inputType == "chat" && req.sessionId == sessionId
  {
  }

  /** An accepted submit followed by its settlement, whatever the outcome, adds exactly two
      messages, the user's then one assistant message, and leaves both flags down. */
  lemma SubmitThenSettle(s: ChatState, userId: string, replyId: string, o: Outcome)
    requires Accepts(s)
    ensures Submitted(s, userId).isSending
    ensures var t := Resolved(Submitted(s, userId), replyId, o);
      && t.messages == s.messages + [Message(userId, User, Trim(s.input)), Message(replyId, Assistant, ReplyContent(o))]
      && |t.messages| == |s.messages| + 2
      && !t.isSending && !t.loading && t.input == "" && t.loadingIndex == 0
  {
    var question, answer := Message(userId, User, Trim(s.input)), Message(replyId, Assistant, ReplyContent(o));
    var u := Submitted(s, userId);
    assert u.messages == s.messages + [question];
    assert (s.messages + [question]) + [answer] == s.messages + [question, answer];
  }

  /** The mounted screen is well formed. */
  lemma InitialWellFormed()
    ensures WellFormed(Initial())
  {
  }

  lemma SubmitKeepsWellFormed(s: ChatState, id: string)
    requires WellFormed(s)
    ensures WellFormed(Submitted(s, id))
  {
    if Accepts(s) {
      var question := Message(id, User, Trim(s.input));
      TrimIdempotent(s.input);
      QuestionKeepsWellFormed(s, question);
      assert Submitted(s, id) == s.(messages := s.messages + [question],
                                    input := "", isSending := true, loading := true);
    }
  }

  /** Appending a trimmed non-empty user message to an idle conversation, emptying the input and
      raising the flags keeps the invariant; the placeholder index stays at 0. */
  lemma QuestionKeepsWellFormed(s: ChatState, question: Message)
    requires WellFormed(s) && !s.isSending
    requires question.role == User && IsUserText(question.content)
    ensures WellFormed(s.(messages := s.messages + [question], input := "", isSending := true, loading := true))
  {
    var msgs := s.messages + [question];
    var n := |s.messages|;
    assert Alternating(msgs) by {
      forall i | 0 <= i < |msgs|
        ensures msgs[i].role == (if i % 2 == 0 then User else Assistant)
      {
        if i < n { assert msgs[i] == s.messages[i]; }
      }
    }
    assert UserTextsTrimmed(msgs) by {
      forall i | 0 <= i < |msgs| && msgs[i].role == User
        ensures IsUserText(msgs[i].content)
      {
        if i < n { assert msgs[i] == s.messages[i]; }
      }
    }
  }

  /** From an accepted submit the placeholders run 0, 1, 2, 3, 4, 5, 0, ... while the request is
      in flight. */
  lemma SubmitThenTicks(s: ChatState, id: string, n: nat)
    requires WellFormed(s) && Accepts(s)
    ensures Ticks(Submitted(s, id), n).loadingIndex == n % |LoadingMessages|
  {
    SubmitKeepsWellFormed(s, id);
    TicksCycle(Submitted(s, id), n);
  }

  lemma SettleKeepsWellFormed(s: ChatState, id: string, o: Outcome)
    requires WellFormed(s) && s.isSending
    ensures WellFormed(Resolved(s, id, o))
  {
    var answer := Message(id, Assistant, ReplyContent(o));
    AnswerKeepsWellFormed(s, answer);
    assert Resolved(s, id, o) == s.(messages := s.messages + [answer],
                                    isSending := false, loading := false, loadingIndex := 0);
  }

  /** Appending any assistant message to a pending conversation and lowering the flags keeps the
      invariant, whatever the message says. */
  lemma AnswerKeepsWellFormed(s: ChatState, answer: Message)
    requires WellFormed(s) && s.isSending && answer.role == Assistant
    ensures WellFormed(s.(messages := s.messages + [answer], isSending := false, loading := false, loadingIndex := 0))
  {
    var msgs := s.messages + [answer];
    var n := |s.messages|;
    assert Alternating(msgs) by {
      forall i | 0 <= i < |msgs|
        ensures msgs[i].role == (if i % 2 == 0 then User else Assistant)
      {
        if i < n { assert msgs[i] == s.messages[i]; }
      }
    }
    assert UserTextsTrimmed(msgs) by {
      forall i | 0 <= i < |msgs| && msgs[i].role == User
        ensures IsUserText(msgs[i].content)
      {
        assert i < n && msgs[i] == s.messages[i];
      }
    }
  }

  lemma TickKeepsWellFormed(s: ChatState)
    requires WellFormed(s)
    ensures WellFormed(Ticked(s))
  {
  }

  lemma TypeKeepsWellFormed(s: ChatState, text: string)
    requires WellFormed(s)
    ensures WellFormed(Typed(s, text))
  {
  }

  lemma StepKeepsWellFormed(s: ChatState, e: Event)
    requires WellFormed(s)
    ensures WellFormed(Step(s, e))
  {
    match e
    case Type(text) => TypeKeepsWellFormed(s, text);
    case Submit(id) => SubmitKeepsWellFormed(s, id);
    case Settle(id, o) => if s.isSending { SettleKeepsWellFormed(s, id, o); }
    case Tick => TickKeepsWellFormed(s);
  }

  /** Every state the screen can reach from mounting is well formed. */
  lemma {:induction false} RunKeepsWellFormed(s: ChatState, events: seq<Event>)
    requires WellFormed(s)
    ensures WellFormed(Run(s, events))
    decreases |events|
  {
    if events != [] {
      StepKeepsWellFormed(s, events[0]);
      RunKeepsWellFormed(Step(s, events[0]), events[1..]);
    }
  }

  /** In a well-formed state every user message is answered by the very next message, except the
      last one while its request is in flight; so at most one message is ever pending. */
  lemma EveryUserMessageAnswered(s: ChatState, i: nat)
    requires WellFormed(s)
    requires i < |s.messages| && s.messages[i].role == User
    ensures (i + 1 < |s.messages| && s.messages[i + 1].role == Assistant)
            || (i == |s.messages| - 1 && s.isSending)
  {
    if i + 1 < |s.messages| {
      assert s.messages[i + 1].role == (if (i + 1) % 2 == 0 then User else Assistant);
    }
  }

  /** While loading, the placeholder index after `n` ticks is the start index plus `n`, modulo the
      number of placeholders: 0, 1, 2, 3, 4, 5, 0, ... from 0. */
  lemma {:induction false} TicksCycle(s: ChatState, n: nat)
    requires WellFormed(s) && s.loading
    ensures Ticks(s, n).loading
    ensures Ticks(s, n).loadingIndex == (s.loadingIndex + n) % |LoadingMessages|
    ensures Ticks(s, n).messages == s.messages
  {
    if n > 0 {
      TicksCycle(s, n - 1);
      SuccMod(s.loadingIndex + n - 1);
    }
  }

  /** Advancing the wrapped placeholder counter by one is the same as wrapping the advanced counter. */
  lemma SuccMod(a: nat)
    ensures ((a % |LoadingMessages|) + 1) % |LoadingMessages| == (a + 1) % |LoadingMessages|
  {
    assert |LoadingMessages| == 6;
    if a % 6 == 5 {
      assert a + 1 == (a / 6 + 1) * 6;
    }
  }

  /** While not loading there is no interval, and the index stays at 0. */
  lemma {:induction false} TicksIdle(s: ChatState, n: nat)
    requires WellFormed(s) && !s.loading
    ensures Ticks(s, n) == s && Ticks(s, n).loadingIndex == 0
  {
    if n > 0 {
      TicksIdle(s, n - 1);
    }
  }

  // ---------------------------------------------------------------------------------------------
  // The component

  class ChatScreen {
    /** `convoID`, fixed for the life of the screen. */
    const convoId: string
    var messages: seq<Message>
    var input: string
    var isSending: bool
    var loading: bool
    var loadingMessageIndex: nat

    function State(): ChatState
      reads this
    {
      ChatState(messages, input, isSending, loading, loadingMessageIndex)
    }

    ghost predicate Valid()
      reads this
    {
      WellFormed(State())
    }

    constructor (convoId: string)
      ensures Valid() && State() == Initial() && this.convoId == convoId
    {
      this.convoId := convoId;
      messages, input := [], "";
      isSending, loading := false, false;
      loadingMessageIndex := 0;
    }

    /** The text area's `onChange`. */
    method SetInput(text: string)
      requires Valid()
      modifies this
      ensures Valid() && State() == Typed(old(State()), text)
    {
      if !isSending {
        input := text;
      }
      TypeKeepsWellFormed(old(State()), text);
    }

    /** `handleSubmit` up to its `await`; `request` is the body it posts, if any. */
    method HandleSubmit(id: string) returns (request: Option<Request>)
      requires Valid()
      modifies this
      ensures Valid() && State() == Submitted(old(State()), id)
      ensures request == if Accepts(old(State())) then Some(RequestFor(old(State()), convoId)) else None
    {
      SubmitKeepsWellFormed(State(), id);
      var trimmed := Trim(input);
      if trimmed == [] || isSending {
        return None;
      }
      messages := messages + [Message(id, User, trimmed)];
      input := "";
      isSending := true;
      loading := true;
      request := Some(Request("chat", "chat", trimmed, convoId));
    }

    /** `handleSubmit` after its `await`: the try, catch and finally blocks, then the effect that
        resets the placeholder index. */
    method CompleteRequest(id: string, outcome: Outcome)
      requires Valid() && isSending
      modifies this
      ensures Valid() && State() == Resolved(old(State()), id, outcome)
    {
      SettleKeepsWellFormed(State(), id, outcome);
      messages, loading, isSending, loadingMessageIndex :=
        messages + [Message(id, Assistant, ReplyContent(outcome))], false, false, 0;
    }

    /** One firing of the placeholder interval. */
    method TickLoadingMessage()
      requires Valid()
      modifies this
      ensures Valid() && State() == Ticked(old(State()))
    {
      TickKeepsWellFormed(State());
      if loading {
        loadingMessageIndex := (loadingMessageIndex + 1) % |LoadingMessages|;
      }
    }

    /** The placeholder on screen: `LOADING_MESSAGES[loadingMessageIndex]`. */
    function LoadingText(): (text: string)
      reads this
      requires Valid()
      ensures text in LoadingMessages
      ensures !loading ==> text == "Thinking..."
    {
      LoadingMessages[loadingMessageIndex]
    }
  }

  /** A whole exchange on the component: one accepted submit and its settlement. */
  method Exchange(screen: ChatScreen, userId: string, replyId: string, outcome: Outcome)
    returns (request: Option<Request>)
    requires screen.Valid() && Accepts(screen.State())
    modifies screen
    ensures screen.Valid()
    ensures request == Some(Request("chat", "chat", Trim(old(screen.input)), screen.convoId))
    ensures screen.messages == old(screen.messages)
              + [Message(userId, User, Trim(old(screen.input))), Message(replyId, Assistant, ReplyContent(outcome))]
    ensures !screen.isSending && !screen.loading && screen.input == ""
  {
    ghost var s := screen.State();
    SubmitThenSettle(s, userId, replyId, outcome);
    request := screen.HandleSubmit(userId);
    screen.CompleteRequest(replyId, outcome);
  }
}
