/**
 * The older email detail component (`EmailDetail`, kept in the repository as a
 * commented-out file): a chat with a sender-specific greeting and a one-shot
 * reply draft whose button disappears once a draft exists.
 *
 * As in the live page, each async handler is split at its `await` into an
 * event that may issue a request and a resumption event carrying the outcome.
 */
module EmailDetail {
  import opened Base
  import opened Text
  import Mail

  datatype Role = User | Agent

  datatype ChatMessage = ChatMessage(role: Role, content: string)

  /** The greeting written when the component shows an email. */
  function Greeting(sender: string): ChatMessage
  {
    ChatMessage(Agent, "Hello! I've analyzed this email from " + sender + ". How can I help?")
  }

  const ChatErrorText := "Sorry, I encountered an error."
  const DraftNotice := ChatMessage(Agent, "I've drafted a reply for you below.")

  /** A request issued to the backend. */
  datatype Call = ChatCall(emailId: int, query: string) | DraftCall(emailId: int)

  datatype Session = Session(
    emailId: int,
    history: seq<ChatMessage>,
    input: string,
    loadingChat: bool,
    draft: Option<Mail.Draft>,
    loadingDraft: bool)

  datatype Event =
    | EmailChanged(email: Mail.Email)                  // a new `email` prop arrives
    | InputChanged(text: string)
    | Send                                             // handleSend, up to its await
    | SendResumed(reply: Outcome<string>)              // ... and after it
    | RequestDraft                                     // handleDraft, up to its await
    | DraftResumed(generated: Outcome<Mail.Draft>)     // ... and after it

  /** The state once the component has shown `email` and its reset effect has run. */
  function Mount(email: Mail.Email): Session
  {
    Session(email.id, [Greeting(email.sender)], "", false, None, false)
  }

  function Step(s: Session, e: Event): Session
  {
    match e
    case EmailChanged(email) =>
      if email.id == s.emailId then s
      else s.(emailId := email.id, history := [Greeting(email.sender)], draft := None)
    case InputChanged(text) => s.(input := text)
    case Send =>
      if IsBlank(s.input) then s
      else s.(history := s.history + [ChatMessage(User, s.input)], input := "", loadingChat := true)
    case SendResumed(reply) =>
      s.(history := s.history + [ChatMessage(Agent, if reply.Succeeded? then reply.payload else ChatErrorText)],
         loadingChat := false)
    case RequestDraft => s.(loadingDraft := true)
    case DraftResumed(generated) =>
      if generated.Succeeded? then
        s.(draft := Some(generated.payload), history := s.history + [DraftNotice], loadingDraft := false)
      else s.(loadingDraft := false)
  }

  function Issued(s: Session, e: Event): Option<Call>
  {
    match e
    case Send => if IsBlank(s.input) then None else Some(ChatCall(s.emailId, s.input))
    case RequestDraft => Some(DraftCall(s.emailId))
    case _ => None
  }

  function Run(s: Session, events: seq<Event>): Session
    decreases |events|
  {
    if events == [] then s else Run(Step(s, events[0]), events[1..])
  }

  /** The requests issued along a sequence of events, in order. */
  function Calls(s: Session, events: seq<Event>): seq<Call>
    decreases |events|
  {
    if events == [] then []
    else
      var here := Issued(s, events[0]);
      (if here.Some? then [here.value] else []) + Calls(Step(s, events[0]), events[1..])
  }

  /** The draft button is rendered only while there is no draft and none is being generated. */
  predicate DraftButtonShown(s: Session)
  {
    s.draft.None? && !s.loadingDraft
  }

  /** The category badge is highlighted for "Urgent Work" only. */
  function CategoryBadgeUrgent(category: Option<string>): (r: bool)
    ensures r <==> category == Some("Urgent Work")
  {
    category.Some? && category.value == "Urgent Work"
  }

  /**
   * The events a user can produce: the draft can be requested only through its
   * button, and a request resumes only while it is outstanding.
   */
  predicate Possible(s: Session, e: Event)
  {
    && (e.RequestDraft? ==> DraftButtonShown(s))
    && (e.DraftResumed? ==> s.loadingDraft)
  }

  predicate PossibleRun(s: Session, events: seq<Event>)
    decreases |events|
  {
    events == [] || (Possible(s, events[0]) && PossibleRun(Step(s, events[0]), events[1..]))
  }

  /** While a draft is shown, none is being generated. */
  predicate DraftSettled(s: Session)
  {
    s.draft.Some? ==> !s.loadingDraft
  }

  predicate IsDraftCall(c: Call)
  {
    c.DraftCall?
  }

  // ---------------------------------------------------------------- properties

  /** The greeting names the email's sender. */
  lemma GreetingNamesSender(sender: string)
    ensures Contains(Greeting(sender).content, sender)
  {
    var prefix := "Hello! I've analyzed this email from ";
    assert OccursAt(Greeting(sender).content, sender, |prefix|) by {
      assert Greeting(sender).content[|prefix|..|prefix| + |sender|] == sender;
    }
  }

  /** A new email id resets the history to that email's greeting and clears the draft. */
  lemma EmailChangeResets(s: Session, email: Mail.Email)
    requires email.id != s.emailId
    ensures var t := Step(s, EmailChanged(email));
      t.history == Mount(email).history && t.draft == None && t.emailId == email.id
  {
  }

  /** An email with the same id but another sender keeps the old greeting: the reset is keyed on the id alone. */
  lemma SameIdKeepsGreeting(email: Mail.Email, sender: string)
    requires sender != email.sender
    ensures Step(Mount(email), EmailChanged(email.(sender := sender))).history == [Greeting(email.sender)]
    ensures Greeting(email.sender) != Greeting(sender)
  {
    var n, m := |"Hello! I've analyzed this email from "|, |". How can I help?"|;
    var g1, g2 := Greeting(email.sender).content, Greeting(sender).content;
    assert g1[n..|g1| - m] == email.sender;
    assert g2[n..|g2| - m] == sender;
  }

  /** Sending has no loading guard: a non-blank input is sent even while a reply is outstanding. */
  lemma SendIgnoresLoading(s: Session)
    requires !IsBlank(s.input)
    ensures Issued(s, Send) == Some(ChatCall(s.emailId, s.input))
    ensures Step(s, Send).history == s.history + [ChatMessage(User, s.input)]
    ensures Step(s, Send).loadingChat && Step(s, Send).input == ""
  {
  }

  /** A successful draft also announces itself in the history; a failed one changes nothing but the flag. */
  lemma DraftOutcome(s: Session, generated: Outcome<Mail.Draft>)
    ensures var t := Step(s, DraftResumed(generated));
      && !t.loadingDraft
      && (generated.Succeeded? ==> t.draft == Some(generated.payload) && t.history == s.history + [DraftNotice])
      && (generated.Failed? ==> t == s.(loadingDraft := false))
  {
  }

  /** Every possible event keeps a shown draft settled. */
  lemma StepKeepsSettled(s: Session, e: Event)
    requires DraftSettled(s) && Possible(s, e)
    ensures DraftSettled(Step(s, e))
  {
  }

  /**
   * Once a draft is shown it stays, and no further draft is requested, until the
   * email changes: the button that requests one is no longer rendered.
   */
  lemma {:induction false} DraftIsFinal(s: Session, events: seq<Event>)
    requires s.draft.Some? && DraftSettled(s) && PossibleRun(s, events)
    requires forall i :: 0 <= i < |events| ==> !events[i].EmailChanged?
    ensures Run(s, events).draft == s.draft
    ensures forall c :: c in Calls(s, events) ==> !IsDraftCall(c)
    decreases |events|
  {
    if events != [] {
      var t := Step(s, events[0]);
      assert !events[0].RequestDraft?;
      assert t.draft == s.draft;
      StepKeepsSettled(s, events[0]);
      DraftIsFinal(t, events[1..]);
      assert Issued(s, events[0]).Some? ==> !IsDraftCall(Issued(s, events[0]).value);
    }
  }

  /** From a fresh mount, a successful draft hides the button for good on that email. */
  lemma MountDraftScenario(email: Mail.Email, d: Mail.Draft)
    ensures DraftButtonShown(Mount(email))
    ensures var t := Step(Step(Mount(email), RequestDraft), DraftResumed(Succeeded(d)));
      && !DraftButtonShown(t)
      && t.history == [Greeting(email.sender), DraftNotice]
  {
  }

  // ---------------------------------------------------------------- the component

  class Controller {
    var emailId: int
    var chatHistory: seq<ChatMessage>
    var input: string
    var loadingChat: bool
    var draft: Option<Mail.Draft>
    var loadingDraft: bool

    function State(): Session
      reads this
    {
      Session(emailId, chatHistory, input, loadingChat, draft, loadingDraft)
    }

    /** Showing an email, after the reset effect has run. */
    constructor (email: Mail.Email)
      ensures State() == Mount(email)
    {
      emailId := email.id;
      chatHistory := [Greeting(email.sender)];
      input := "";
      loadingChat := false;
      draft := None;
      loadingDraft := false;
    }

    /** The reset effect keyed on `email.id`. */
    method EmailChanged(email: Mail.Email)
      modifies this
      ensures State() == Step(old(State()), Event.EmailChanged(email))
    {
      if email.id != emailId {
        emailId := email.id;
        chatHistory := [Greeting(email.sender)];
        draft := None;
      }
    }

    method InputChanged(text: string)
      modifies this
      ensures State() == Step(old(State()), Event.InputChanged(text))
    {
      input := text;
    }

    /** `handleSend` up to its await. */
    method HandleSend() returns (call: Option<Call>)
      modifies this
      ensures State() == Step(old(State()), Send)
      ensures call == Issued(old(State()), Send)
    {
      if IsBlank(input) {
        return None;
      }
      var userMsg := input;
      chatHistory := chatHistory + [ChatMessage(User, userMsg)];
      input := "";
      loadingChat := true;
      call := Some(ChatCall(emailId, userMsg));
    }

    /** `handleSend` after its await, including the `finally`. */
    method ResumeSend(reply: Outcome<string>)
      modifies this
      ensures State() == Step(old(State()), SendResumed(reply))
    {
      if reply.Succeeded? {
        chatHistory := chatHistory + [ChatMessage(Agent, reply.payload)];
      } else {
        chatHistory := chatHistory + [ChatMessage(Agent, ChatErrorText)];
      }
      loadingChat := false;
    }

    /** `handleDraft` up to its await. */
    method HandleDraft() returns (call: Call)
      modifies this
      ensures State() == Step(old(State()), RequestDraft)
      ensures Some(call) == Issued(old(State()), RequestDraft)
    {
      loadingDraft := true;
      call := DraftCall(emailId);
    }

    /** `handleDraft` after its await, including the `finally`; a failure is only logged. */
    method ResumeDraft(generated: Outcome<Mail.Draft>)
      modifies this
      ensures State() == Step(old(State()), DraftResumed(generated))
    {
      if generated.Succeeded? {
        draft := Some(generated.payload);
        chatHistory := chatHistory + [DraftNotice];
      }
      loadingDraft := false;
    }
  }
}
