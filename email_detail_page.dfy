/**
 * The live email detail page (`EmailDetailPage`): its assistant chat, quick
 * actions and reply-draft generation.
 *
 * Each async handler is split at its `await`: the part before the await is one
 * event (it may issue a request), and the resumption, including the `finally`
 * block, is another event carrying the request's outcome. Nothing ties a
 * resumption to the email it was issued for: every update appends to the
 * latest transcript, so a late reply lands in whatever transcript is current.
 */
module EmailDetailPage {
  import opened Base
  import opened Text
  import Mail

  datatype Role = User | Assistant

  datatype ChatMessage = ChatMessage(role: Role, content: string)

  const Greeting := ChatMessage(Assistant, "I've analyzed this email. How can I help you?")
  const ChatErrorText := "Sorry, I encountered an error."
  const QuickActionErrorText := "Error processing request."

  datatype QuickAction = Summarize | Tasks

  /** The fixed prompt each quick-action button sends. */
  function QuickPrompt(action: QuickAction): string
  {
    match action
    case Summarize => "Please summarize this email"
    case Tasks => "Extract all action items from this email"
  }

  /** A request issued to the backend. */
  datatype Call = ChatCall(emailId: int, query: string) | DraftCall(emailId: int)

  /** The page's state hooks and the id of the email it is showing. */
  datatype Session = Session(
    emailId: int,
    messages: seq<ChatMessage>,
    input: string,
    loading: bool,
    draft: Option<Mail.Draft>)

  datatype Event =
    | EmailChanged(id: int)                                  // a new `email` prop arrives
    | InputChanged(text: string)                             // typing
    | SendMessage                                            // handleSendMessage, up to its await
    | SendMessageResumed(reply: Outcome<string>)             // ... and after it
    | QuickActionClicked(action: QuickAction)                // handleQuickAction, up to its await
    | QuickActionResumed(reply: Outcome<string>)             // ... and after it
    | GenerateDraft                                          // handleGenerateDraft, up to its await
    | GenerateDraftResumed(generated: Outcome<Mail.Draft>)     // ... and after it

  /** The state after mounting for an email. */
  function Mount(emailId: int): Session
  {
    Session(emailId, [Greeting], "", false, None)
  }

  /** The assistant turn appended when a chat request resumes. */
  function Reply(outcome: Outcome<string>, errorText: string): ChatMessage
  {
    ChatMessage(Assistant, if outcome.Succeeded? then outcome.payload else errorText)
  }

  /** How one event changes the page's state. */
  function Step(s: Session, e: Event): Session
  {
    match e
    case EmailChanged(id) =>
      // the effect keyed on `email.id` runs only when the id differs
      if id == s.emailId then s else s.(emailId := id, messages := [Greeting], draft := None)
    case InputChanged(text) => s.(input := text)
    case SendMessage =>
      if IsBlank(s.input) then s
      else s.(messages := s.messages + [ChatMessage(User, s.input)], input := "", loading := true)
    case SendMessageResumed(outcome) =>
      s.(messages := s.messages + [Reply(outcome, ChatErrorText)], loading := false)
    case QuickActionClicked(action) =>
      s.(loading := true, messages := s.messages + [ChatMessage(User, QuickPrompt(action))])
    case QuickActionResumed(outcome) =>
      s.(messages := s.messages + [Reply(outcome, QuickActionErrorText)], loading := false)
    case GenerateDraft => s.(loading := true)
    case GenerateDraftResumed(outcome) =>
      if outcome.Succeeded? then s.(draft := Some(outcome.payload), loading := false)
      else s.(loading := false)
  }

  /** The request an event issues, if any. */
  function Issued(s: Session, e: Event): Option<Call>
  {
    match e
    case SendMessage => if IsBlank(s.input) then None else Some(ChatCall(s.emailId, s.input))
    case QuickActionClicked(action) => Some(ChatCall(s.emailId, QuickPrompt(action)))
    case GenerateDraft => Some(DraftCall(s.emailId))
    case _ => None
  }

  /** The state after a sequence of events. */
  function Run(s: Session, events: seq<Event>): Session
    decreases |events|
  {
    if events == [] then s else Run(Step(s, events[0]), events[1..])
  }

  /** The send button is enabled only for a non-blank input while nothing is loading. */
  predicate SendButtonEnabled(s: Session)
  {
    !IsBlank(s.input) && !s.loading
  }

  /** The draft button is disabled while loading. */
  predicate DraftButtonEnabled(s: Session)
  {
    !s.loading
  }

  // ---------------------------------------------------------------- properties

  /** A new email id resets the transcript to the greeting alone and clears the draft, as mounting does. */
  lemma EmailChangeResets(s: Session, id: int)
    requires id != s.emailId
    ensures Step(s, EmailChanged(id)).messages == Mount(id).messages == [Greeting]
    ensures Step(s, EmailChanged(id)).draft == Mount(id).draft == None
    ensures Step(s, EmailChanged(id)).input == s.input && Step(s, EmailChanged(id)).loading == s.loading
  {
  }

  /** Sending a blank input changes nothing and issues no request. */
  lemma BlankSendIsNoOp(s: Session)
    requires IsBlank(s.input)
    ensures Step(s, SendMessage) == s && Issued(s, SendMessage) == None
  {
  }

  /** Inputs made only of spaces, tabs or line breaks trim to nothing and are blank. */
  lemma WhitespaceIsBlank(text: string)
    requires forall i :: 0 <= i < |text| ==> text[i] in {' ', '\t', '\n', '\r'}
    ensures JsTrim(text) == "" && IsBlank(text)
  {
    BlankIff(text);
  }

  /**
   * A non-blank send appends exactly one user turn holding the input as typed,
   * clears the input, sets loading and asks about the current email.
   */
  lemma SendAppendsUserTurn(s: Session)
    requires !IsBlank(s.input)
    ensures Step(s, SendMessage).messages == s.messages + [ChatMessage(User, s.input)]
    ensures Step(s, SendMessage).input == "" && Step(s, SendMessage).loading
    ensures Issued(s, SendMessage) == Some(ChatCall(s.emailId, s.input))
  {
  }

  /** Sending by Enter ignores `isLoading`: a second request starts while one is outstanding. */
  lemma EnterIgnoresLoading(s: Session)
    requires s.loading && !IsBlank(s.input)
    ensures !SendButtonEnabled(s)
    ensures Issued(s, SendMessage).Some?
  {
  }

  /** A chat reply appends one assistant turn: the response, or the apology on failure; loading ends. */
  lemma ChatReplyAppendsOneTurn(s: Session, outcome: Outcome<string>)
    ensures var t := Step(s, SendMessageResumed(outcome));
      && |t.messages| == |s.messages| + 1 && t.messages[..|s.messages|] == s.messages
      && t.messages[|s.messages|].role == Assistant
      && t.messages[|s.messages|].content
         == (if outcome.Succeeded? then outcome.payload else "Sorry, I encountered an error.")
      && !t.loading
  {
  }

  /** A quick action sends its fixed prompt as a user turn, whatever the loading state; its failure text differs. */
  lemma QuickActionSendsFixedPrompt(s: Session, action: QuickAction, outcome: Outcome<string>)
    ensures var t := Step(s, QuickActionClicked(action));
      && t.messages == s.messages + [ChatMessage(User, QuickPrompt(action))] && t.loading
      && Issued(s, QuickActionClicked(action)) == Some(ChatCall(s.emailId, QuickPrompt(action)))
      && Step(t, QuickActionResumed(outcome)).messages
         == t.messages + [ChatMessage(Assistant, if outcome.Succeeded? then outcome.payload
                                                 else "Error processing request.")]
  {
  }

  /** A draft never touches the transcript; success stores it, failure keeps the old one; loading ends. */
  lemma DraftReplyKeepsTranscript(s: Session, outcome: Outcome<Mail.Draft>)
    ensures var t := Step(s, GenerateDraftResumed(outcome));
      && t.messages == s.messages && !t.loading
      && t.draft == (if outcome.Succeeded? then Some(outcome.payload) else s.draft)
  {
  }

  /** Without an email change the transcript only grows: the old one is a prefix of the new. */
  lemma {:induction false} TranscriptOnlyGrows(s: Session, events: seq<Event>)
    requires forall i :: 0 <= i < |events| ==> !events[i].EmailChanged?
    ensures s.messages <= Run(s, events).messages
    decreases |events|
  {
    if events != [] {
      var t := Step(s, events[0]);
      assert s.messages <= t.messages;
      TranscriptOnlyGrows(t, events[1..]);
    }
  }

  /** A reply requested for one email that resumes after a switch lands in the new email's transcript. */
  lemma LateReplyLandsInNewTranscript(s: Session, other: int, response: string)
    requires other != s.emailId && !IsBlank(s.input)
    ensures Run(s, [SendMessage, EmailChanged(other), SendMessageResumed(Succeeded(response))]).messages
            == [Greeting, ChatMessage(Assistant, response)]
    ensures Issued(s, SendMessage) == Some(ChatCall(s.emailId, s.input))
  {
    var e0, e1, e2 := SendMessage, EmailChanged(other), SendMessageResumed(Succeeded(response));
    RunThree(s, e0, e1, e2);
    var s1 := Step(s, e0);
    assert s1 == s.(messages := s.messages + [ChatMessage(User, s.input)], input := "", loading := true);
    var s2 := Step(s1, e1);
    assert s2 == s1.(emailId := other, messages := [Greeting], draft := None);
    var s3 := Step(s2, e2);
    assert s3.messages == [Greeting] + [ChatMessage(Assistant, response)];
  }

  /** Running three events is stepping through them in order. */
  lemma RunThree(s: Session, e0: Event, e1: Event, e2: Event)
    ensures Run(s, [e0, e1, e2]) == Step(Step(Step(s, e0), e1), e2)
  {
    assert [e0, e1, e2][1..] == [e1, e2] && [e1, e2][1..] == [e2] && [e2][1..] == [];
    var s1 := Step(s, e0);
    var s2 := Step(s1, e1);
    assert Run(s2, [e2]) == Run(Step(s2, e2), []) == Step(s2, e2);
    assert Run(s1, [e1, e2]) == Run(s2, [e2]);
  }

  // ---------------------------------------------------------------- the component

  /** The page component's state hooks. */
  class Controller {
    var emailId: int
    var chatMessages: seq<ChatMessage>
    var inputValue: string
    var isLoading: bool
    var draft: Option<Mail.Draft>

    function State(): Session
      reads this
    {
      Session(emailId, chatMessages, inputValue, isLoading, draft)
    }

    /** Mounting for an email, after the effect keyed on its id has run. */
    constructor (emailId: int)
      ensures State() == Mount(emailId)
    {
      this.emailId := emailId;
      chatMessages := [Greeting];
      inputValue := "";
      isLoading := false;
      draft := None;
    }

    /** The effect keyed on `email.id`. */
    method EmailChanged(id: int)
      modifies this
      ensures State() == Step(old(State()), Event.EmailChanged(id))
    {
      if id != emailId {
        emailId := id;
        chatMessages := [Greeting];
        draft := None;
      }
    }

    method InputChanged(text: string)
      modifies this
      ensures State() == Step(old(State()), Event.InputChanged(text))
    {
      inputValue := text;
    }

    /** `handleSendMessage` up to its await. */
    method HandleSendMessage() returns (call: Option<Call>)
      modifies this
      ensures State() == Step(old(State()), SendMessage)
      ensures call == Issued(old(State()), SendMessage)
    {
      if IsBlank(inputValue) {
        return None;
      }
      chatMessages := chatMessages + [ChatMessage(User, inputValue)];
      var userQuery := inputValue;
      inputValue := "";
      isLoading := true;
      call := Some(ChatCall(emailId, userQuery));
    }

    /** `handleSendMessage` after its await, including the `finally`. */
    method ResumeSendMessage(outcome: Outcome<string>)
      modifies this
      ensures State() == Step(old(State()), SendMessageResumed(outcome))
    {
      if outcome.Succeeded? {
        chatMessages := chatMessages + [ChatMessage(Assistant, outcome.payload)];
      } else {
        chatMessages := chatMessages + [ChatMessage(Assistant, ChatErrorText)];
      }
      isLoading := false;
    }

    /** `handleQuickAction` up to its await. */
    method HandleQuickAction(action: QuickAction) returns (call: Call)
      modifies this
      ensures State() == Step(old(State()), QuickActionClicked(action))
      ensures Some(call) == Issued(old(State()), QuickActionClicked(action))
    {
      isLoading := true;
      var prompt := QuickPrompt(action);
      chatMessages := chatMessages + [ChatMessage(User, prompt)];
      call := ChatCall(emailId, prompt);
    }

    /** `handleQuickAction` after its await, including the `finally`. */
    method ResumeQuickAction(outcome: Outcome<string>)
      modifies this
      ensures State() == Step(old(State()), QuickActionResumed(outcome))
    {
      if outcome.Succeeded? {
        chatMessages := chatMessages + [ChatMessage(Assistant, outcome.payload)];
      } else {
        chatMessages := chatMessages + [ChatMessage(Assistant, QuickActionErrorText)];
      }
      isLoading := false;
    }

    /** `handleGenerateDraft` up to its await. */
    method HandleGenerateDraft() returns (call: Call)
      modifies this
      ensures State() == Step(old(State()), GenerateDraft)
      ensures Some(call) == Issued(old(State()), GenerateDraft)
    {
      isLoading := true;
      call := DraftCall(emailId);
    }

    /** `handleGenerateDraft` after its await, including the `finally`; a failure is only logged. */
    method ResumeGenerateDraft(outcome: Outcome<Mail.Draft>)
      modifies this
      ensures State() == Step(old(State()), GenerateDraftResumed(outcome))
    {
      if outcome.Succeeded? {
        draft := Some(outcome.payload);
      }
      isLoading := false;
    }
  }

  /**
   * Driving the component: a question about email 1 is answered after the page
   * has switched to email 2; the answer appears under email 2's greeting.
   */
  method LateReplyScenario(response: string) returns (shown: seq<ChatMessage>)
    ensures shown == [Greeting, ChatMessage(Assistant, response)]
  {
    var page := new Controller(1);
    page.InputChanged("What is the deadline?");
    assert !IsBlank(page.inputValue) by {
      assert page.inputValue[0] == 'W';
    }
    var call := page.HandleSendMessage();
    assert call == Some(ChatCall(1, "What is the deadline?"));
    page.EmailChanged(2);
    page.ResumeSendMessage(Succeeded(response));
    shown := page.chatMessages;
  }
}
