/**
 * The live prompt configuration page (`PromptBrainPage`): it loads the stored
 * prompts, saves a prompt when its text box loses focus, and marks the saved
 * prompt with a "Saved" badge that a timer removes again.
 *
 * Pending async work is part of the state: a save whose request is in flight
 * remembers the `saved` map its handler closed over, and every scheduled timer
 * remembers the prompt type it will unmark. Timers fire as explicit events.
 */
module PromptBrainPage {
  import opened Base
  import opened Text
  import Mail

  /** A save in flight: its prompt type and the `saved` map of the render whose handler started it. */
  datatype PendingSave = PendingSave(promptType: string, closureSaved: map<string, bool>)

  datatype Session = Session(
    prompts: seq<Mail.Prompt>,
    loading: bool,
    saved: map<string, bool>,
    inflight: seq<PendingSave>,
    timers: multiset<string>)

  /** A request issued to the backend. */
  datatype Call = GetPrompts | UpdatePrompt(promptType: string, text: string)

  datatype Event =
    | FetchResumed(fetched: Outcome<seq<Mail.Prompt>>)   // fetchPrompts after its await
    | SaveStarted(promptType: string, text: string)       // handleSave up to its await
    | SaveResumed(index: nat, saveOutcome: Outcome<()>)   // handleSave of in-flight save `index` after its await
    | TimerFired(timerType: string)                       // a two-second timer set by a successful save

  /** The state on mounting, when the fetch has been issued. */
  const Initial := Session([], true, map[], [], multiset{})

  function Step(s: Session, e: Event): Session
  {
    match e
    case FetchResumed(fetched) =>
      if fetched.Succeeded? then s.(prompts := fetched.payload, loading := false) else s.(loading := false)
    case SaveStarted(t, _) => s.(inflight := s.inflight + [PendingSave(t, s.saved)])
    case SaveResumed(k, saveOutcome) =>
      if k < |s.inflight| then
        var p := s.inflight[k];
        var rest := s.inflight[..k] + s.inflight[k + 1..];
        if saveOutcome.Succeeded? then
          s.(saved := p.closureSaved[p.promptType := true], inflight := rest,
             timers := s.timers + multiset{p.promptType})
        else s.(inflight := rest)
      else s
    case TimerFired(t) =>
      if t in s.timers then s.(saved := s.saved[t := false], timers := s.timers - multiset{t}) else s
  }

  function Issued(s: Session, e: Event): Option<Call>
  {
    match e
    case SaveStarted(t, text) => Some(UpdatePrompt(t, text))
    case _ => None
  }

  function Run(s: Session, events: seq<Event>): Session
    decreases |events|
  {
    if events == [] then s else Run(Step(s, events[0]), events[1..])
  }

  /** The "Saved" badge is shown for a prompt type whose entry is true (a missing entry is falsy). */
  predicate ShowsSaved(s: Session, promptType: string)
  {
    promptType in s.saved && s.saved[promptType]
  }

  /** The spinner replaces the page while loading. */
  predicate ShowsSpinner(s: Session)
  {
    s.loading
  }

  // ---------------------------------------------------------------- labels

  /** The card title: the prompt type with its first underscore made a space, then " Prompt". */
  function Label(promptType: string): (r: string)
    ensures |r| == |promptType| + 7 && r[|promptType|..] == " Prompt"
    ensures '_' in promptType ==> r[IndexOf(promptType, '_')] == ' '
    ensures forall i :: 0 <= i < |promptType| && i != IndexOf(promptType, '_') ==> r[i] == promptType[i]
  {
    ReplaceFirst(promptType, '_', ' ') + " Prompt"
  }

  const Descriptions: map<string, string> := map[
    "categorize" := "Defines how emails are automatically categorized into different types (Urgent, Meeting, etc.)",
    "summarize" := "Controls how the AI generates concise summaries of email content",
    "action_items" := "Instructs the AI on how to extract tasks, deadlines, and actionable items",
    "reply_positive" := "Template for generating positive/accepting email responses",
    "reply_negative" := "Template for generating polite decline responses"]

  const FallbackDescription := "Configure this AI prompt behavior"

  /** The card description: the known text for one of the five seeded types, the fallback otherwise. */
  function Description(promptType: string): (r: string)
    ensures promptType in Descriptions ==> r == Descriptions[promptType]
    ensures promptType !in Descriptions ==> r == FallbackDescription
  {
    if promptType in Descriptions then Descriptions[promptType] else FallbackDescription
  }

  // ---------------------------------------------------------------- properties

  /**
   * Only the first underscore becomes a space: "reply_positive" reads
   * "reply positive Prompt", while "a_b_c" reads "a b_c Prompt".
   */
  lemma LabelReplacesFirstUnderscoreOnly(first: string, rest: string)
    requires '_' !in first
    ensures Label(first + "_" + rest) == first + " " + rest + " Prompt"
  {
    var t := first + "_" + rest;
    var k := IndexOf(t, '_');
    assert t[|first|] == '_';
    assert t[..|first|] == first;
    assert k == |first|;
    assert t[k + 1..] == rest;
  }

  /** An unknown prompt type gets the fallback description; the five seeded types do not. */
  lemma DescriptionFallback(promptType: string)
    ensures Description(promptType) == FallbackDescription
            <==> promptType !in {"categorize", "summarize", "action_items", "reply_positive", "reply_negative"}
  {
  }

  /** Loading ends whatever the fetch outcome; a failed fetch leaves the prompts as they were. */
  lemma FetchEndsLoading(s: Session, fetched: Outcome<seq<Mail.Prompt>>)
    ensures !Step(s, FetchResumed(fetched)).loading
    ensures Step(s, FetchResumed(fetched)).prompts == (if fetched.Succeeded? then fetched.payload else s.prompts)
    ensures Step(s, FetchResumed(fetched)).saved == s.saved
  {
  }

  /** A failed initial fetch shows an empty list instead of the spinner. */
  lemma FailedFetchShowsNothing()
    ensures var t := Step(Initial, FetchResumed(Failed));
      !ShowsSpinner(t) && t.prompts == []
  {
  }

  /**
   * A successful save marks its type in the map its handler closed over (not
   * in the latest map) and schedules one timer for that type.
   */
  lemma SaveSuccessMarks(s: Session, k: nat)
    requires k < |s.inflight|
    ensures var p := s.inflight[k];
      var t := Step(s, SaveResumed(k, Succeeded(())));
      && t.saved == p.closureSaved[p.promptType := true]
      && ShowsSaved(t, p.promptType)
      && t.timers == s.timers + multiset{p.promptType}
      && |t.inflight| == |s.inflight| - 1
  {
  }

  /** A failed save leaves the badges as they are and schedules no timer. */
  lemma SaveFailureKeepsSaved(s: Session, k: nat)
    ensures var t := Step(s, SaveResumed(k, Failed));
      t.saved == s.saved && t.timers == s.timers
  {
  }

  /** A timer unmarks its own type and leaves every other entry unchanged. */
  lemma TimerUnmarksOnlyItsType(s: Session, t: string)
    requires t in s.timers
    ensures !ShowsSaved(Step(s, TimerFired(t)), t)
    ensures forall u :: u != t ==> (u in s.saved <==> u in Step(s, TimerFired(t)).saved)
    ensures forall u :: u != t && u in s.saved ==> Step(s, TimerFired(t)).saved[u] == s.saved[u]
  {
  }

  /**
   * Two saves started from the same render, for different types, both succeed:
   * the second success spreads the stale map, so the first type's badge is lost.
   */
  lemma {:induction false} LostUpdate(s: Session, a: string, b: string)
    requires a != b && !ShowsSaved(s, a) && s.inflight == []
    ensures var t := Run(s, [SaveStarted(a, "x"), SaveStarted(b, "y"),
                            SaveResumed(0, Succeeded(())), SaveResumed(0, Succeeded(()))]);
      && !ShowsSaved(t, a) && ShowsSaved(t, b)
      && t.timers == s.timers + multiset{a, b}
  {
    var e0, e1, e2, e3 := SaveStarted(a, "x"), SaveStarted(b, "y"),
                          SaveResumed(0, Succeeded(())), SaveResumed(0, Succeeded(()));
    var s1 := Step(s, e0);
    var s2 := Step(s1, e1);
    assert s2.inflight == s.inflight + [PendingSave(a, s.saved), PendingSave(b, s.saved)];
    RunFour(s, e0, e1, e2, e3);
    var s3 := Step(s2, e2);
    var s4 := Step(s3, e3);
    assert s3.saved == s.saved[a := true];
    assert s3.inflight == [PendingSave(b, s.saved)];
    assert s4.saved == s.saved[b := true];
    assert s4.timers == s.timers + multiset{a} + multiset{b};
  }

  lemma RunFour(s: Session, e0: Event, e1: Event, e2: Event, e3: Event)
    ensures Run(s, [e0, e1, e2, e3]) == Step(Step(Step(Step(s, e0), e1), e2), e3)
  {
    var s1 := Step(s, e0);
    var s2 := Step(s1, e1);
    var s3 := Step(s2, e2);
    assert [e0, e1, e2, e3][1..] == [e1, e2, e3];
    assert [e1, e2, e3][1..] == [e2, e3] && [e2, e3][1..] == [e3] && [e3][1..] == [];
    assert Run(s3, [e3]) == Run(Step(s3, e3), []);
    assert Run(s2, [e2, e3]) == Run(s3, [e3]);
    assert Run(s1, [e1, e2, e3]) == Run(s2, [e2, e3]);
  }

  // ---------------------------------------------------------------- the component

  class Controller {
    var prompts: seq<Mail.Prompt>
    var loading: bool
    var saved: map<string, bool>
    var inflight: seq<PendingSave>
    var timers: multiset<string>

    function State(): Session
      reads this
    {
      Session(prompts, loading, saved, inflight, timers)
    }

    /** Mounting: the fetch is issued and the spinner shows. */
    constructor ()
      ensures State() == Initial
    {
      prompts := [];
      loading := true;
      saved := map[];
      inflight := [];
      timers := multiset{};
    }

    /** `fetchPrompts` after its await. */
    method FetchPromptsResumed(fetched: Outcome<seq<Mail.Prompt>>)
      modifies this
      ensures State() == Step(old(State()), FetchResumed(fetched))
    {
      if fetched.Succeeded? {
        prompts := fetched.payload;
      }
      loading := false;
    }

    /** `handleSave` up to its await: the handler closes over the current `saved`. */
    method HandleSave(promptType: string, text: string) returns (call: Call)
      modifies this
      ensures State() == Step(old(State()), SaveStarted(promptType, text))
      ensures Some(call) == Issued(old(State()), SaveStarted(promptType, text))
    {
      inflight := inflight + [PendingSave(promptType, saved)];
      call := UpdatePrompt(promptType, text);
    }

    /** `handleSave` of in-flight save `index` after its await. */
    method ResumeSave(index: nat, saveOutcome: Outcome<()>)
      modifies this
      ensures State() == Step(old(State()), SaveResumed(index, saveOutcome))
    {
      if index < |inflight| {
        var p := inflight[index];
        inflight := inflight[..index] + inflight[index + 1..];
        if saveOutcome.Succeeded? {
          saved := p.closureSaved[p.promptType := true];
          timers := timers + multiset{p.promptType};
        }
      }
    }

    /** The timer callback: unmark only its own type, in the latest map. */
    method FireTimer(promptType: string)
      modifies this
      ensures State() == Step(old(State()), TimerFired(promptType))
    {
      if promptType in timers {
        saved := saved[promptType := false];
        timers := timers - multiset{promptType};
      }
    }
  }

  /** Driving the page: two prompts blurred in a row both save, yet only the second shows its badge. */
  method LostUpdateScenario() returns (summarizeShown: bool, categorizeShown: bool)
    ensures !summarizeShown && categorizeShown
  {
    var page := new Controller();
    page.FetchPromptsResumed(Succeeded([]));
    var c1 := page.HandleSave("summarize", "Summarize briefly.");
    var c2 := page.HandleSave("categorize", "Pick one category.");
    page.ResumeSave(0, Succeeded(()));
    page.ResumeSave(0, Succeeded(()));
    summarizeShown := ShowsSaved(page.State(), "summarize");
    categorizeShown := ShowsSaved(page.State(), "categorize");
  }
}
