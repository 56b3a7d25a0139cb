/**
 * The older prompt configuration component (`PromptBrain`): a single `saving`
 * slot names the prompt whose "Saving changes..." note is shown. Card titles
 * are formatted as on the live page (`PromptBrainPage.Label`).
 *
 * The count of saves in flight and of scheduled one-second timers is part of
 * the state, so that resumptions and timers happen only when pending.
 */
module PromptBrain {
  import opened Base
  import Mail
  import PromptBrainPage

  datatype Session = Session(
    prompts: seq<Mail.Prompt>,
    loading: bool,
    saving: Option<string>,
    inflight: nat,
    timers: nat)

  datatype Event =
    | LoadResumed(loaded: Outcome<seq<Mail.Prompt>>)   // loadPrompts after its await
    | SaveStarted(promptType: string, text: string)     // handleSave up to its await
    | SaveResumed(saveOutcome: Outcome<()>)             // handleSave after its await
    | TimerFired                                        // the timer set by a successful save

  const Initial := Session([], true, None, 0, 0)

  function Step(s: Session, e: Event): Session
  {
    match e
    case LoadResumed(loaded) =>
      if loaded.Succeeded? then s.(prompts := loaded.payload, loading := false) else s.(loading := false)
    case SaveStarted(t, _) => s.(saving := Some(t), inflight := s.inflight + 1)
    case SaveResumed(saveOutcome) =>
      if s.inflight == 0 then s
      else if saveOutcome.Succeeded? then s.(inflight := s.inflight - 1, timers := s.timers + 1)
      else s.(inflight := s.inflight - 1, saving := None)
    case TimerFired =>
      if s.timers == 0 then s else s.(timers := s.timers - 1, saving := None)
  }

  function Issued(s: Session, e: Event): Option<PromptBrainPage.Call>
  {
    match e
    case SaveStarted(t, text) => Some(PromptBrainPage.UpdatePrompt(t, text))
    case _ => None
  }

  function Run(s: Session, events: seq<Event>): Session
    decreases |events|
  {
    if events == [] then s else Run(Step(s, events[0]), events[1..])
  }

  /** "Saving changes..." is shown under the prompt whose type equals the slot. */
  predicate ShowsSaving(s: Session, promptType: string)
  {
    s.saving == Some(promptType)
  }

  // ---------------------------------------------------------------- properties

  /** The note shows under at most one prompt. */
  lemma SavingShowsForOneType(s: Session, a: string, b: string)
    requires ShowsSaving(s, a) && ShowsSaving(s, b)
    ensures a == b
  {
  }

  /** Loading ends whatever the outcome; a failed first load leaves no prompts. */
  lemma LoadEndsLoading(loaded: Outcome<seq<Mail.Prompt>>)
    ensures !Step(Initial, LoadResumed(loaded)).loading
    ensures Step(Initial, LoadResumed(loaded)).prompts == (if loaded.Succeeded? then loaded.payload else [])
  {
  }

  /** A save takes the slot before its request goes out, overwriting any earlier type. */
  lemma SaveTakesSlot(s: Session, t: string, text: string)
    ensures ShowsSaving(Step(s, SaveStarted(t, text)), t)
    ensures forall u :: u != t ==> !ShowsSaving(Step(s, SaveStarted(t, text)), u)
    ensures Issued(s, SaveStarted(t, text)) == Some(PromptBrainPage.UpdatePrompt(t, text))
  {
  }

  /** A failure clears the slot at once; a success keeps it and schedules a timer, whose firing clears it. */
  lemma SaveOutcomes(s: Session, t: string)
    requires s.inflight > 0 && ShowsSaving(s, t)
    ensures Step(s, SaveResumed(Failed)).saving == None
    ensures var ok := Step(s, SaveResumed(Succeeded(())));
      ShowsSaving(ok, t) && ok.timers == s.timers + 1 && Step(ok, TimerFired).saving == None
  {
  }

  /**
   * The slot is not tied to the save that set it: after a first save succeeds,
   * a second save starts, and the first save's timer clears the second's note
   * while its request is still in flight.
   */
  lemma {:induction false} TimerClearsLaterSave(a: string, b: string)
    ensures var s := Run(Initial, [SaveStarted(a, "x"), SaveResumed(Succeeded(())), SaveStarted(b, "y")]);
      ShowsSaving(s, b) && s.inflight == 1
    ensures var s := Run(Initial, [SaveStarted(a, "x"), SaveResumed(Succeeded(())), SaveStarted(b, "y"), TimerFired]);
      !ShowsSaving(s, b) && s.inflight == 1
  {
    var e0, e1, e2, e3 := SaveStarted(a, "x"), SaveResumed(Succeeded(())), SaveStarted(b, "y"), TimerFired;
    var s1 := Step(Initial, e0);
    var s2 := Step(s1, e1);
    var s3 := Step(s2, e2);
    var s4 := Step(s3, e3);
    assert [e0, e1, e2][1..] == [e1, e2] && [e1, e2][1..] == [e2] && [e2][1..] == [];
    assert [e0, e1, e2, e3][1..] == [e1, e2, e3] && [e1, e2, e3][1..] == [e2, e3] && [e2, e3][1..] == [e3];
    assert [e3][1..] == [];
    assert Run(s3, []) == s3 && Run(s4, []) == s4;
    assert Run(s2, [e2]) == s3 && Run(s3, [e3]) == s4;
    assert Run(s1, [e1, e2]) == s3 && Run(s2, [e2, e3]) == s4;
    assert Run(s1, [e1, e2, e3]) == s4;
  }

  // ---------------------------------------------------------------- the component

  class Controller {
    var prompts: seq<Mail.Prompt>
    var loading: bool
    var saving: Option<string>
    var inflight: nat
    var timers: nat

    function State(): Session
      reads this
    {
      Session(prompts, loading, saving, inflight, timers)
    }

    constructor ()
      ensures State() == Initial
    {
      prompts := [];
      loading := true;
      saving := None;
      inflight := 0;
      timers := 0;
    }

    /** `loadPrompts` after its await, including the `finally`. */
    method LoadPromptsResumed(loaded: Outcome<seq<Mail.Prompt>>)
      modifies this
      ensures State() == Step(old(State()), LoadResumed(loaded))
    {
      if loaded.Succeeded? {
        prompts := loaded.payload;
      }
      loading := false;
    }

    /** `handleSave` up to its await. */
    method HandleSave(promptType: string, text: string) returns (call: PromptBrainPage.Call)
      modifies this
      ensures State() == Step(old(State()), SaveStarted(promptType, text))
      ensures Some(call) == Issued(old(State()), SaveStarted(promptType, text))
    {
      saving := Some(promptType);
      inflight := inflight + 1;
      call := PromptBrainPage.UpdatePrompt(promptType, text);
    }

    /** `handleSave` after its await. */
    method ResumeSave(saveOutcome: Outcome<()>)
      modifies this
      ensures State() == Step(old(State()), SaveResumed(saveOutcome))
    {
      if inflight > 0 {
        inflight := inflight - 1;
        if saveOutcome.Succeeded? {
          timers := timers + 1;
        } else {
          saving := None;
        }
      }
    }

    /** The timer callback clears the slot, whoever holds it. */
    method FireTimer()
      modifies this
      ensures State() == Step(old(State()), TimerFired)
    {
      if timers > 0 {
        timers := timers - 1;
        saving := None;
      }
    }
  }

  /** Driving the component: the first save's timer hides the second save's note. */
  method TimerScenario() returns (shownBefore: bool, shownAfter: bool)
    ensures shownBefore && !shownAfter
  {
    var brain := new Controller();
    brain.LoadPromptsResumed(Succeeded([]));
    var c1 := brain.HandleSave("summarize", "Summarize briefly.");
    brain.ResumeSave(Succeeded(()));
    var c2 := brain.HandleSave("categorize", "Pick one category.");
    shownBefore := ShowsSaving(brain.State(), "categorize");
    brain.FireTimer();
    shownAfter := ShowsSaving(brain.State(), "categorize");
  }
}
