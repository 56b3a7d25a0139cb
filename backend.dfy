/**
 * The FastAPI backend (`main.py`): AI enrichment of incoming emails, the
 * ingest endpoint that rebuilds the email table, the read endpoints that parse
 * stored action items back, the prompt upsert, and the chat and draft
 * endpoints.
 *
 * The database is a `Database` object holding the two tables as maps: emails
 * keyed by id, prompts keyed by their unique type. `json.loads`/`json.dumps`
 * are oracles passed in a `Json` value; the AI service is `None` when it
 * failed to start, as `ai_service` is.
 */
module Backend {
  import opened Base
  import opened Text
  import opened Mail
  import AiService

  type Service = Option<AiService.GeminiService>

  /** An error response: an explicit `HTTPException`, or an unhandled exception (status 500). */
  datatype Failure = HttpError(status: int, detail: string) | Unhandled

  /** What `json.loads` yields: a list (of action items), `null`, another JSON value, or a parse error. */
  datatype Parsed = ParsedList(items: seq<ActionItem>) | ParsedNull | ParsedOther | ParseError

  datatype Json = Json(loads: string -> Parsed, dumps: seq<ActionItem> -> string)

  /** `json.loads` reads back what `json.dumps` wrote for a non-empty list, and the text is not empty. */
  ghost predicate Faithful(json: Json)
  {
    forall items: seq<ActionItem> ::
      items != [] ==> json.dumps(items) != "" && json.loads(json.dumps(items)) == ParsedList(items)
  }

  /** `ai_service` at import time: the started service, or `None` when the constructor raised. */
  function StartService(env: Option<string>, model: AiService.Model): (r: Service)
    ensures r.Some? <==> AiService.Started(env, model).Ok?
  {
    match AiService.Started(env, model)
    case Ok(service) => Some(service)
    case Err(_) => None
  }

  // ---------------------------------------------------------------- AI enrichment

  const Uncategorized := "Uncategorized"
  const NoSummary := "Summary not available"

  /** `categorize_email_with_ai`: the stripped model text, or "Uncategorized". */
  function CategorizeEmail(service: Service, content: string): (r: string)
    ensures service.None? ==> r == Uncategorized
    ensures service.Some? && service.value.model(AiService.Categorize(content)).Raised? ==> r == Uncategorized
    ensures service.Some? && service.value.model(AiService.Categorize(content)).Replied? ==>
      r == PyStrip(service.value.model(AiService.Categorize(content)).text)
  {
    if service.None? then Uncategorized
    else
      match service.value.model(AiService.Categorize(content))
      case Replied(text) => PyStrip(text)
      case Raised(_) => Uncategorized
  }

  /** `generate_summary`: the stripped model text, or "Summary not available". */
  function GenerateSummary(service: Service, content: string): (r: string)
    ensures service.None? ==> r == NoSummary
    ensures service.Some? && service.value.model(AiService.Summarize(content)).Raised? ==> r == NoSummary
    ensures service.Some? && service.value.model(AiService.Summarize(content)).Replied? ==>
      r == PyStrip(service.value.model(AiService.Summarize(content)).text)
  {
    if service.None? then NoSummary
    else
      match service.value.model(AiService.Summarize(content))
      case Replied(text) => PyStrip(text)
      case Raised(_) => NoSummary
  }

  const Fence := "```"

  /** The text before the first fence: `t.split("```")[0]`. */
  function BeforeFence(t: string): (r: string)
    ensures |r| <= |t| && r == t[..|r|]
    ensures !Contains(r, Fence)
    ensures |r| < |t| ==> OccursAt(t, Fence, |r|)
  {
    if |t| < 3 then
      assert !Contains(t, Fence) by {
        forall i | 0 <= i <= |t| ensures !OccursAt(t, Fence, i) {}
      }
      t
    else if t[..3] == Fence then []
    else
      var rest := BeforeFence(t[1..]);
      var r := [t[0]] + rest;
      assert !Contains(r, Fence) by {
        forall i | 0 <= i <= |r| ensures !OccursAt(r, Fence, i) {
          if i > 0 && OccursAt(r, Fence, i) {
            assert OccursAt(rest, Fence, i - 1) by {
              assert r[i..i + 3] == rest[i - 1..i + 2];
            }
          }
          if i == 0 && |r| >= 3 {
            assert r[..3] == t[..3];
          }
        }
      }
      r
  }

  /** `t[4:]` when `t` starts with "json". */
  function DropJsonTag(t: string): (r: string)
    ensures Contains(t, r)
    ensures StartsWith(t, "json") ==> r == t[4..]
    ensures !StartsWith(t, "json") ==> r == t
  {
    if StartsWith(t, "json") then
      SliceContained(t, 4, |t|);
      assert t[4..|t|] == t[4..];
      t[4..]
    else
      assert t[0..|t|] == t;
      SliceContained(t, 0, |t|);
      t
  }

  /**
   * The markdown clean-up of `extract_action_items`: text that starts with a
   * fence becomes the part between the first two fences, without a leading
   * "json" tag, stripped; other text is kept as it is.
   */
  function CleanFences(text: string): (r: string)
    ensures !StartsWith(text, Fence) ==> r == text
    ensures StartsWith(text, Fence) ==> !Contains(r, Fence)
    ensures StartsWith(text, Fence) ==> r == PyStrip(DropJsonTag(BeforeFence(text[3..])))
  {
    if StartsWith(text, Fence) then
      var segment := BeforeFence(text[3..]);
      var untagged := DropJsonTag(segment);
      var r := PyStrip(untagged);
      StripIsPart(untagged, IsPySpace);
      NotContainedInPart(segment, untagged, Fence);
      NotContainedInPart(untagged, r, Fence);
      r
    else text
  }

  /**
   * `extract_action_items`: the parsed value when it is a list, and the empty
   * list when there is no service, the model raised, or the text is not a list.
   */
  function ExtractActionItems(service: Service, content: string, json: Json): (r: seq<ActionItem>)
    ensures service.None? ==> r == []
    ensures r != [] ==> service.Some? && service.value.model(AiService.ExtractActionItems(content)).Replied?
    ensures service.Some? && service.value.model(AiService.ExtractActionItems(content)).Replied? ==>
      var loaded := json.loads(CleanFences(PyStrip(service.value.model(AiService.ExtractActionItems(content)).text)));
      r == (if loaded.ParsedList? then loaded.items else [])
  {
    if service.None? then []
    else
      match service.value.model(AiService.ExtractActionItems(content))
      case Raised(_) => []
      case Replied(text) =>
        match json.loads(CleanFences(PyStrip(text)))
        case ParsedList(items) => items
        case _ => []
  }

  // ---------------------------------------------------------------- tables

  /** An item of the mock inbox file. */
  datatype MockItem = MockItem(id: int, sender: string, subject: string, body: string, timestamp: string, isRead: bool)

  /** A row of the `emails` table; action items are stored as JSON text. */
  datatype EmailRow = EmailRow(
    id: int, sender: string, subject: string, body: string, timestamp: string, isRead: bool,
    category: Option<string>, summary: Option<string>, actionItems: Option<string>)

  datatype PromptRow = PromptRow(id: nat, templateText: string)

  /** The `prompts` table keyed by its unique `prompt_type`, and the last id handed out. */
  datatype PromptTable = PromptTable(rows: map<string, PromptRow>, lastId: nat)

  /**
   * Ids are positive, no larger than the last one handed out, and distinct; the
   * last one handed out is still in the table, so it is the largest id.
   */
  predicate PromptsValid(t: PromptTable)
  {
    && (forall k :: k in t.rows ==> 1 <= t.rows[k].id <= t.lastId)
    && (t.lastId == 0 || exists k :: k in t.rows && t.rows[k].id == t.lastId)
    && (forall k, k' :: k in t.rows && k' in t.rows && k != k' ==> t.rows[k].id != t.rows[k'].id)
  }

  /** The text ingest analyses: sender, subject and body. */
  function IngestContent(item: MockItem): string
  {
    "From: " + item.sender + "\nSubject: " + item.subject + "\n\n" + item.body
  }

  /** The analysed text starts with the sender line and ends with the body. */
  lemma IngestContentParts(item: MockItem)
    ensures var c := IngestContent(item);
      && |c| >= 6 + |item.sender| + |item.body|
      && c[..6 + |item.sender|] == "From: " + item.sender
      && c[|c| - |item.body|..] == item.body
  {
  }

  /** `json.dumps(action_items) if action_items else None`. */
  function StoredActionItems(items: seq<ActionItem>, json: Json): (r: Option<string>)
    ensures r.None? <==> items == []
  {
    if items == [] then None else Some(json.dumps(items))
  }

  /** The row ingest adds for one item. */
  function RowFor(service: Service, item: MockItem, json: Json): (r: EmailRow)
    ensures r.id == item.id && r.sender == item.sender && r.subject == item.subject && r.body == item.body
    ensures r.timestamp == item.timestamp && r.isRead == item.isRead
    ensures r.category.Some? && r.summary.Some?
  {
    var content := IngestContent(item);
    EmailRow(item.id, item.sender, item.subject, item.body, item.timestamp, item.isRead,
             Some(CategorizeEmail(service, content)), Some(GenerateSummary(service, content)),
             StoredActionItems(ExtractActionItems(service, content, json), json))
  }

  function IdsOf(items: seq<MockItem>): (r: set<int>)
    ensures forall i :: 0 <= i < |items| ==> items[i].id in r
  {
    if items == [] then {} else IdsOf(items[..|items| - 1]) + {items[|items| - 1].id}
  }

  /** The ids are exactly the items' ids: nothing else is among them. */
  lemma {:induction false} IdsOfExactly(items: seq<MockItem>)
    ensures IdsOf(items) == set i | 0 <= i < |items| :: items[i].id
    decreases |items|
  {
    if items != [] {
      var front := items[..|items| - 1];
      IdsOfExactly(front);
      forall x | x in IdsOf(items)
        ensures x in set i | 0 <= i < |items| :: items[i].id
      {
        if x in IdsOf(front) {
          var i :| 0 <= i < |front| && front[i].id == x;
          assert items[i] == front[i];
        } else {
          assert items[|items| - 1].id == x;
        }
      }
    }
  }

  predicate DistinctIds(items: seq<MockItem>)
  {
    items == [] || (DistinctIds(items[..|items| - 1]) && items[|items| - 1].id !in IdsOf(items[..|items| - 1]))
  }

  /** The rows pending after adding `items` in order, keyed by id. */
  function RowsFor(service: Service, items: seq<MockItem>, json: Json): (r: map<int, EmailRow>)
    ensures r.Keys == IdsOf(items)
    ensures forall id :: id in r ==> r[id].id == id
  {
    if items == [] then map[]
    else RowsFor(service, items[..|items| - 1], json)[items[|items| - 1].id := RowFor(service, items[|items| - 1], json)]
  }

  /** Insert `prompt_type` with `text`, or update the text of the row that has it. */
  function Upsert(t: PromptTable, promptType: string, text: string): PromptTable
  {
    if promptType in t.rows then PromptTable(t.rows[promptType := PromptRow(t.rows[promptType].id, text)], t.lastId)
    else PromptTable(t.rows[promptType := PromptRow(t.lastId + 1, text)], t.lastId + 1)
  }

  const DefaultPrompts: seq<(string, string)> := [
    ("categorize", "Categorize this email into: Urgent Work, Meeting, Newsletter, Spam, Personal, or General based on content and urgency."),
    ("summarize", "Summarize this email in 2-3 concise sentences highlighting the main point."),
    ("action_items", "Extract all action items, tasks, and deadlines from this email. Return as JSON array."),
    ("reply_positive", "Draft a positive and professional reply to this email."),
    ("reply_negative", "Draft a polite decline to this email.")]

  function InsertAll(t: PromptTable, prompts: seq<(string, string)>): PromptTable
    decreases |prompts|
  {
    if prompts == [] then t else InsertAll(Upsert(t, prompts[0].0, prompts[0].1), prompts[1..])
  }

  /** The five default prompts, added only to an empty table. */
  function SeedDefaults(t: PromptTable): PromptTable
  {
    if |t.rows| == 0 then InsertAll(t, DefaultPrompts) else t
  }

  datatype Store = Store(emails: map<int, EmailRow>, prompts: PromptTable)

  const NoServiceIngest := "AI Service not initialized. Check backend/.env"
  const NoMockData := "Mock data file not found"

  /**
   * `ingest_inbox`: the response and the tables afterwards. Repeated ids make
   * the final commit fail; the delete was already committed with the seeded
   * prompts when they were seeded, and is rolled back otherwise.
   */
  function Ingested(service: Service, data: Option<seq<MockItem>>, json: Json, before: Store): (r: (Result<nat, Failure>, Store))
    ensures service.None? || data.None? ==> r.0.Err? && r.1 == before
    ensures r.0.Ok? <==> service.Some? && data.Some? && DistinctIds(data.value)
    ensures r.0.Ok? ==> r.0.value == |data.value| && r.1.emails.Keys == IdsOf(data.value)
    ensures service.Some? && data.Some? ==> r.1.prompts == SeedDefaults(before.prompts)
    ensures r.0.Err? ==> r.1.emails == before.emails || r.1.emails == map[]
  {
    if service.None? then (Err(HttpError(500, NoServiceIngest)), before)
    else if data.None? then (Err(HttpError(500, NoMockData)), before)
    else
      var prompts := SeedDefaults(before.prompts);
      if DistinctIds(data.value) then (Ok(|data.value|), Store(RowsFor(service, data.value, json), prompts))
      else (Err(Unhandled), Store(if |before.prompts.rows| == 0 then map[] else before.emails, prompts))
  }

  // ---------------------------------------------------------------- reads

  const NotFound := HttpError(404, "Email not found")

  /**
   * The stored action items as the response carries them: JSON text is parsed,
   * a parse error reads as the empty list, `null` reads as absent, and any
   * other non-list value or an empty text fails response validation.
   */
  function ReadActionItems(column: Option<string>, json: Json): (r: Result<Option<seq<ActionItem>>, Failure>)
    ensures column.None? ==> r == Ok(None)
    ensures r.Ok? && r.value.Some? ==> column.Some? && column.value != ""
  {
    if column.None? then Ok(None)
    else if column.value == "" then Err(Unhandled)
    else
      match json.loads(column.value)
      case ParsedList(items) => Ok(Some(items))
      case ParseError => Ok(Some([]))
      case ParsedNull => Ok(None)
      case ParsedOther => Err(Unhandled)
  }

  function ReadEmail(row: EmailRow, json: Json): (r: Result<Email, Failure>)
    ensures r.Ok? <==> ReadActionItems(row.actionItems, json).Ok?
    ensures r.Ok? ==> r.value == Email(row.id, row.sender, row.subject, row.body, row.timestamp, row.isRead,
                                       row.category, row.summary, ReadActionItems(row.actionItems, json).value)
  {
    match ReadActionItems(row.actionItems, json)
    case Err(e) => Err(e)
    case Ok(items) =>
      Ok(Email(row.id, row.sender, row.subject, row.body, row.timestamp, row.isRead, row.category, row.summary, items))
  }

  /** `get_email`: 404 for a missing id. */
  function GetEmail(emails: map<int, EmailRow>, id: int, json: Json): (r: Result<Email, Failure>)
    ensures id !in emails ==> r == Err(NotFound)
    ensures r.Ok? ==> id in emails && r.value.id == emails[id].id
    ensures id in emails ==> r == ReadEmail(emails[id], json)
  {
    if id !in emails then Err(NotFound) else ReadEmail(emails[id], json)
  }

  /** `get_emails`: every row read back, or a failure when any row fails validation. */
  function GetEmails(emails: map<int, EmailRow>, json: Json): (r: Result<map<int, Email>, Failure>)
    ensures r.Ok? <==> forall id :: id in emails ==> ReadEmail(emails[id], json).Ok?
    ensures r.Ok? ==> r.value.Keys == emails.Keys
    ensures r.Ok? ==> forall id :: id in emails ==> ReadEmail(emails[id], json) == Ok(r.value[id])
  {
    if forall id :: id in emails ==> ReadEmail(emails[id], json).Ok? then
      Ok(map id | id in emails :: ReadEmail(emails[id], json).value)
    else Err(Unhandled)
  }

  // ---------------------------------------------------------------- chat and drafts

  const NoServiceChat := "\U{274C} AI Service not available. Please check your GEMINI_API_KEY in backend/.env"
  const NoServiceDraft := Draft("Error", "\U{274C} AI Service not available. Check GEMINI_API_KEY.")
  const DefaultInstruction := "Draft a professional reply"

  /** The email as the chat and draft prompts quote it. */
  function QuotedEmail(row: EmailRow): string
  {
    "From: " + row.sender + "\nSubject: " + row.subject + "\nBody: " + row.body
  }

  /** `chat_agent`: without a service a message, not an error; otherwise 404 or the model's answer. */
  function ChatAgent(service: Service, emails: map<int, EmailRow>, emailId: int, query: string): (r: Result<string, Failure>)
    ensures service.None? ==> r == Ok(NoServiceChat)
    ensures service.Some? && emailId !in emails ==> r == Err(NotFound)
    ensures service.Some? && emailId in emails ==>
      r == Ok(AiService.GenerateResponse(service.value, QuotedEmail(emails[emailId]), query))
  {
    if service.None? then Ok(NoServiceChat)
    else if emailId !in emails then Err(NotFound)
    else Ok(AiService.GenerateResponse(service.value, QuotedEmail(emails[emailId]), query))
  }

  /** `request.user_instruction or "Draft a professional reply"`. */
  function Instruction(requested: Option<string>): (r: string)
    ensures requested.None? || requested.value == "" ==> r == DefaultInstruction
    ensures requested.Some? && requested.value != "" ==> r == requested.value
  {
    if requested.Some? && requested.value != "" then requested.value else DefaultInstruction
  }

  /** `generate_draft`: an "Error" draft without a service, 404 for a missing email, else a "Re: " reply. */
  function GenerateDraft(service: Service, emails: map<int, EmailRow>, emailId: int, requested: Option<string>)
    : (r: Result<Draft, Failure>)
    ensures service.None? ==> r == Ok(NoServiceDraft)
    ensures service.Some? && emailId !in emails ==> r == Err(NotFound)
    ensures service.Some? && emailId in emails ==>
      r == Ok(Draft("Re: " + emails[emailId].subject,
                    AiService.GenerateDraft(service.value, QuotedEmail(emails[emailId]), Instruction(requested))))
  {
    if service.None? then Ok(NoServiceDraft)
    else if emailId !in emails then Err(NotFound)
    else
      var row := emails[emailId];
      Ok(Draft("Re: " + row.subject,
               AiService.GenerateDraft(service.value, QuotedEmail(row), Instruction(requested))))
  }

  /** The loop of `ingest_inbox`: the rows added in order, and whether an id was added twice. */
  method PendingRows(service: Service, items: seq<MockItem>, json: Json)
    returns (pending: map<int, EmailRow>, duplicate: bool)
    ensures pending == RowsFor(service, items, json)
    ensures duplicate <==> !DistinctIds(items)
  {
    pending := map[];
    duplicate := false;
    var i := 0;
    while i < |items|
      invariant 0 <= i <= |items|
      invariant pending == RowsFor(service, items[..i], json)
      invariant duplicate == !DistinctIds(items[..i])
    {
      var item := items[i];
      assert items[..i + 1][..i] == items[..i];
      if item.id in pending {
        duplicate := true;
      }
      pending := pending[item.id := RowFor(service, item, json)];
      i := i + 1;
    }
    assert items[..i] == items;
  }

  // ---------------------------------------------------------------- the database

  class Database {
    var emails: map<int, EmailRow>
    var prompts: PromptTable

    /** Every email row is stored under its own id, and the prompt ids are sound. */
    predicate Valid()
      reads this
    {
      (forall id :: id in emails ==> emails[id].id == id) && PromptsValid(prompts)
    }

    function State(): Store
      reads this
    {
      Store(emails, prompts)
    }

    /** A new, empty database. */
    constructor ()
      ensures Valid() && emails == map[] && prompts == PromptTable(map[], 0)
    {
      emails := map[];
      prompts := PromptTable(map[], 0);
    }

    /** `ingest_inbox`. */
    method Ingest(service: Service, data: Option<seq<MockItem>>, json: Json) returns (r: Result<nat, Failure>)
      requires Valid()
      modifies this
      ensures Valid()
      ensures (r, State()) == Ingested(service, data, json, old(State()))
    {
      if service.None? {
        return Err(HttpError(500, NoServiceIngest));
      }
      if data.None? {
        return Err(HttpError(500, NoMockData));
      }
      var items := data.value;
      var committed := emails;
      emails := map[];
      if |prompts.rows| == 0 {
        prompts := SeedDefaults(prompts);
        SeedKeepsValid(old(prompts));
        committed := map[];
      }
      var pending, duplicate := PendingRows(service, items, json);
      if duplicate {
        emails := committed;
        return Err(Unhandled);
      }
      emails := pending;
      r := Ok(|items|);
    }

    /** `update_prompt`: the stored prompt after the upsert. */
    method UpdatePrompt(promptType: string, text: string) returns (p: Prompt)
      requires Valid()
      modifies this
      ensures Valid()
      ensures prompts == Upsert(old(prompts), promptType, text) && emails == old(emails)
      ensures p == Prompt(prompts.rows[promptType].id, promptType, text)
    {
      UpsertSetsPrompt(prompts, promptType, text);
      if promptType in prompts.rows {
        var row := prompts.rows[promptType];
        prompts := prompts.(rows := prompts.rows[promptType := row.(templateText := text)]);
      } else {
        var id := prompts.lastId + 1;
        prompts := PromptTable(prompts.rows[promptType := PromptRow(id, text)], id);
      }
      p := Prompt(prompts.rows[promptType].id, promptType, text);
    }
  }

  // ---------------------------------------------------------------- properties

  /** Without a service every enrichment falls back: "Uncategorized", "Summary not available", no action items. */
  lemma NoServiceFallbacks(content: string, json: Json)
    ensures CategorizeEmail(None, content) == "Uncategorized"
    ensures GenerateSummary(None, content) == "Summary not available"
    ensures ExtractActionItems(None, content, json) == []
  {
  }

  /** A category is the fallback or model text with no surrounding whitespace. */
  lemma CategoryIsStripped(service: Service, content: string)
    ensures var c := CategorizeEmail(service, content);
      c == Uncategorized || c == [] || (!IsPySpace(c[0]) && !IsPySpace(c[|c| - 1]))
  {
    if service.Some? && service.value.model(AiService.Categorize(content)).Replied? {
      var text := service.value.model(AiService.Categorize(content)).text;
      assert CategorizeEmail(service, content) == StripWhere(text, IsPySpace);
    }
  }

  /** A summary is the fallback or model text with no surrounding whitespace. */
  lemma SummaryIsStripped(service: Service, content: string)
    ensures var s := GenerateSummary(service, content);
      s == NoSummary || s == [] || (!IsPySpace(s[0]) && !IsPySpace(s[|s| - 1]))
  {
    if service.Some? && service.value.model(AiService.Summarize(content)).Replied? {
      var text := service.value.model(AiService.Summarize(content)).text;
      assert GenerateSummary(service, content) == StripWhere(text, IsPySpace);
    }
  }

  /** A fenced JSON answer is unwrapped to the JSON it holds. */
  lemma FencedJsonUnwrapped(payload: string)
    requires payload != [] && !IsPySpace(payload[0]) && !IsPySpace(payload[|payload| - 1])
    requires '`' !in payload
    ensures CleanFences(PyStrip(Fence + ("json\n" + payload + "\n") + Fence)) == payload
  {
    var inner := "json\n" + payload + "\n";
    FencedTextNotStripped(inner);
    CleanFencedText(inner);
    FenceCutAfterPayload(payload);
    TagDropped(payload);
    NewlinesStripped(payload);
  }

  lemma FenceCutAfterPayload(payload: string)
    requires '`' !in payload
    ensures BeforeFence(("json\n" + payload + "\n") + Fence) == "json\n" + payload + "\n"
  {
    var inner := "json\n" + payload + "\n";
    NoBacktickInTagged(payload);
    BeforeFirstFence(inner, "");
    assert inner + Fence + "" == inner + Fence;
  }

  lemma NewlinesStripped(payload: string)
    requires payload != [] && !IsPySpace(payload[0]) && !IsPySpace(payload[|payload| - 1])
    ensures PyStrip("\n" + payload + "\n") == payload
  {
    StripWrapped("\n", payload, "\n", IsPySpace);
  }

  lemma CleanFencedText(inner: string)
    ensures CleanFences(Fence + inner + Fence) == PyStrip(DropJsonTag(BeforeFence(inner + Fence)))
  {
    var text := Fence + inner + Fence;
    assert text[..3] == Fence;
    assert text[3..] == inner + Fence;
  }

  lemma FencedTextNotStripped(inner: string)
    ensures PyStrip(Fence + inner + Fence) == Fence + inner + Fence
  {
    var text := Fence + inner + Fence;
    assert text[0] == '`' && text[|text| - 1] == '`';
    StripKeeps(text, IsPySpace);
  }

  lemma NoBacktickInTagged(payload: string)
    requires '`' !in payload
    ensures '`' !in "json\n" + payload + "\n"
  {
  }

  lemma TagDropped(payload: string)
    ensures DropJsonTag("json\n" + payload + "\n") == "\n" + payload + "\n"
  {
    var inner := "json\n" + payload + "\n";
    assert inner[..4] == "json";
    assert inner[4..] == "\n" + payload + "\n";
  }

  /** Text without a backtick followed by a fence is cut exactly at that fence. */
  lemma {:induction false} BeforeFirstFence(a: string, b: string)
    requires '`' !in a
    ensures BeforeFence(a + Fence + b) == a
    decreases |a|
  {
    var t := a + Fence + b;
    if a == [] {
      assert t[..3] == Fence;
    } else {
      assert t[..3] != Fence by {
        assert t[0] == a[0] != '`';
      }
      assert t[1..] == a[1..] + Fence + b;
      BeforeFirstFence(a[1..], b);
      assert BeforeFence(t) == [t[0]] + BeforeFence(t[1..]);
      assert a == [a[0]] + a[1..];
    }
  }

  /** An answer that only mentions a fence later is not cleaned, and may keep it. */
  lemma UnfencedTextKept()
    ensures CleanFences("[] ```") == "[] ```"
  {
    assert !StartsWith("[] ```", Fence) by {
      assert "[] ```"[0] == '[';
    }
  }

  /** An empty list of action items is stored as no value, a non-empty one as its JSON text. */
  lemma EmptyActionListStoredAsNone(service: Service, item: MockItem, json: Json)
    ensures var items := ExtractActionItems(service, IngestContent(item), json);
      RowFor(service, item, json).actionItems == (if items == [] then None else Some(json.dumps(items)))
  {
  }

  /**
   * Ingesting and reading back round-trip: with a faithful JSON codec, the
   * email read from a row ingest wrote carries the item's fields and the
   * extracted action items (none when the list was empty).
   */
  lemma IngestThenRead(service: Service, item: MockItem, json: Json)
    requires Faithful(json)
    ensures var content := IngestContent(item);
      var items := ExtractActionItems(service, content, json);
      ReadEmail(RowFor(service, item, json), json)
      == Ok(Email(item.id, item.sender, item.subject, item.body, item.timestamp, item.isRead,
                  Some(CategorizeEmail(service, content)), Some(GenerateSummary(service, content)),
                  if items == [] then None else Some(items)))
  {
    var items := ExtractActionItems(service, IngestContent(item), json);
    if items != [] {
      assert json.dumps(items) != "" && json.loads(json.dumps(items)) == ParsedList(items);
    }
  }

  /**
   * A stored value that does not parse reads as the empty list, `null` reads as
   * absent, and any other non-list fails the response.
   */
  lemma ReadActionItemsCases(text: string, json: Json)
    requires text != ""
    ensures json.loads(text).ParseError? ==> ReadActionItems(Some(text), json) == Ok(Some([]))
    ensures json.loads(text).ParsedNull? ==> ReadActionItems(Some(text), json) == Ok(None)
    ensures json.loads(text).ParsedOther? ==> ReadActionItems(Some(text), json) == Err(Unhandled)
    ensures json.loads(text).ParsedList? ==> ReadActionItems(Some(text), json) == Ok(Some(json.loads(text).items))
  {
  }

  /** Ingest without a service fails with 500 and touches nothing. */
  lemma IngestWithoutService(data: Option<seq<MockItem>>, json: Json, before: Store)
    ensures Ingested(None, data, json, before) == (Err(HttpError(500, "AI Service not initialized. Check backend/.env")), before)
  {
  }

  /** Ingest without the mock file fails with 500 and touches nothing. */
  lemma IngestWithoutData(service: Service, json: Json, before: Store)
    requires service.Some?
    ensures Ingested(service, None, json, before) == (Err(HttpError(500, "Mock data file not found")), before)
  {
  }

  /** Each item's row is stored under its own id, when ids are distinct. */
  lemma {:induction false} RowsForItem(service: Service, items: seq<MockItem>, json: Json, i: nat)
    requires DistinctIds(items) && i < |items|
    ensures items[i].id in RowsFor(service, items, json)
    ensures RowsFor(service, items, json)[items[i].id] == RowFor(service, items[i], json)
    decreases |items|
  {
    var init := items[..|items| - 1];
    if i < |items| - 1 {
      assert items[i] == init[i];
      RowsForItem(service, init, json, i);
      assert items[i].id in IdsOf(init);
    }
  }

  /** With distinct ids there are as many rows as items. */
  lemma {:induction false} DistinctIdsCount(items: seq<MockItem>)
    requires DistinctIds(items)
    ensures |IdsOf(items)| == |items|
  {
    if items != [] {
      DistinctIdsCount(items[..|items| - 1]);
    }
  }

  /**
   * A successful ingest replaces the whole email table with the pending rows and
   * reports the item count; prompts are seeded.
   */
  lemma IngestReplacesEmails(service: Service, items: seq<MockItem>, json: Json, before: Store)
    requires service.Some? && DistinctIds(items)
    ensures Ingested(service, Some(items), json, before)
            == (Ok(|items|), Store(RowsFor(service, items, json), SeedDefaults(before.prompts)))
    ensures var rows := RowsFor(service, items, json);
      && rows.Keys == IdsOf(items) && |rows| == |items|
      && (forall i :: 0 <= i < |items| ==> rows[items[i].id] == RowFor(service, items[i], json))
  {
    DistinctRows(service, items, json);
  }

  /** With distinct ids the pending rows hold one row per item, keyed by its id. */
  lemma DistinctRows(service: Service, items: seq<MockItem>, json: Json)
    requires DistinctIds(items)
    ensures var rows := RowsFor(service, items, json);
      && rows.Keys == IdsOf(items) && |rows| == |items|
      && (forall i :: 0 <= i < |items| ==> rows[items[i].id] == RowFor(service, items[i], json))
  {
    var rows := RowsFor(service, items, json);
    forall i | 0 <= i < |items|
      ensures rows[items[i].id] == RowFor(service, items[i], json)
    {
      RowsForItem(service, items, json, i);
    }
    DistinctIdsCount(items);
  }

  /** Repeated ids fail the commit: the table is empty if prompts were seeded, and as before otherwise. */
  lemma IngestDuplicateIds(service: Service, items: seq<MockItem>, json: Json, before: Store)
    requires service.Some? && !DistinctIds(items)
    ensures var (r, after) := Ingested(service, Some(items), json, before);
      && r == Err(Unhandled)
      && after.emails == (if |before.prompts.rows| == 0 then map[] else before.emails)
  {
  }

  /** Two items with the same id are not distinct. */
  lemma RepeatedIdNotDistinct(a: MockItem, b: MockItem)
    requires a.id == b.id
    ensures !DistinctIds([a, b])
  {
    assert [a, b][..1] == [a];
    assert [a][..0] == [];
  }

  /** Upserting stores the text under the type and leaves every other prompt unchanged. */
  lemma UpsertSetsPrompt(t: PromptTable, promptType: string, text: string)
    requires PromptsValid(t)
    ensures var r := Upsert(t, promptType, text);
      && promptType in r.rows && r.rows[promptType].templateText == text
      && r.rows.Keys == t.rows.Keys + {promptType}
      && (forall k :: k in t.rows && k != promptType ==> r.rows[k] == t.rows[k])
      && (promptType in t.rows ==> r.rows[promptType].id == t.rows[promptType].id)
      && (promptType !in t.rows ==> forall k :: k in t.rows ==> r.rows[k].id != r.rows[promptType].id)
      && PromptsValid(r)
  {
  }

  /** Upserting the same text twice is the same as once. */
  lemma UpsertIdempotent(t: PromptTable, promptType: string, text: string)
    ensures Upsert(Upsert(t, promptType, text), promptType, text) == Upsert(t, promptType, text)
  {
  }

  lemma {:induction false} InsertAllKeepsValid(t: PromptTable, prompts: seq<(string, string)>)
    requires PromptsValid(t)
    ensures PromptsValid(InsertAll(t, prompts))
    decreases |prompts|
  {
    if prompts != [] {
      UpsertSetsPrompt(t, prompts[0].0, prompts[0].1);
      InsertAllKeepsValid(Upsert(t, prompts[0].0, prompts[0].1), prompts[1..]);
    }
  }

  lemma SeedKeepsValid(t: PromptTable)
    requires PromptsValid(t)
    ensures PromptsValid(SeedDefaults(t))
  {
    InsertAllKeepsValid(t, DefaultPrompts);
  }

  /** Seeding a non-empty table changes nothing. */
  lemma SeedOnlyEmpty(t: PromptTable)
    requires |t.rows| > 0
    ensures SeedDefaults(t) == t
  {
  }

  /** The prompt types of a list of prompts. */
  function TypesOf(prompts: seq<(string, string)>): set<string>
  {
    set i | 0 <= i < |prompts| :: prompts[i].0
  }

  /** The types of a non-empty list: the first one and those of the rest. */
  lemma TypesOfCons(prompts: seq<(string, string)>)
    requires prompts != []
    ensures TypesOf(prompts) == {prompts[0].0} + TypesOf(prompts[1..])
  {
    var rest := prompts[1..];
    forall k | k in TypesOf(prompts)
      ensures k in {prompts[0].0} + TypesOf(rest)
    {
      var i :| 0 <= i < |prompts| && prompts[i].0 == k;
      if i > 0 {
        assert rest[i - 1].0 == k;
      }
    }
    forall k | k in TypesOf(rest)
      ensures k in TypesOf(prompts)
    {
      var i :| 0 <= i < |rest| && rest[i].0 == k;
      assert prompts[i + 1].0 == k;
    }
  }

  /**
   * Inserting prompts of distinct types adds exactly those types, each with its
   * text, and leaves every other prompt as it was.
   */
  lemma {:induction false} InsertAllStores(t: PromptTable, prompts: seq<(string, string)>)
    requires forall i, j :: 0 <= i < j < |prompts| ==> prompts[i].0 != prompts[j].0
    ensures InsertAll(t, prompts).rows.Keys == t.rows.Keys + TypesOf(prompts)
    ensures forall i :: 0 <= i < |prompts| ==> InsertAll(t, prompts).rows[prompts[i].0].templateText == prompts[i].1
    ensures forall k :: k in t.rows && k !in TypesOf(prompts) ==> InsertAll(t, prompts).rows[k] == t.rows[k]
    decreases |prompts|
  {
    if prompts != [] {
      var t1 := Upsert(t, prompts[0].0, prompts[0].1);
      var rest := prompts[1..];
      InsertAllStores(t1, rest);
      TypesOfCons(prompts);
      forall i | 0 <= i < |rest|
        ensures rest[i].0 != prompts[0].0
      {
        assert rest[i] == prompts[i + 1];
      }
      forall i | 0 <= i < |prompts|
        ensures InsertAll(t, prompts).rows[prompts[i].0].templateText == prompts[i].1
      {
        if i > 0 {
          assert prompts[i] == rest[i - 1];
        }
      }
    }
  }

  /** The five default prompts have distinct types. */
  lemma DefaultTypesDistinct()
    ensures forall i, j :: 0 <= i < j < |DefaultPrompts| ==> DefaultPrompts[i].0 != DefaultPrompts[j].0
  {
    var d := DefaultPrompts;
    assert d[3].0[6] != d[4].0[6];
  }

  /** Seeding an empty table stores exactly the five default types, each with its text. */
  lemma SeedEmptyTable(t: PromptTable)
    requires t.rows == map[]
    ensures SeedDefaults(t).rows.Keys == TypesOf(DefaultPrompts)
    ensures forall i :: 0 <= i < |DefaultPrompts| ==> SeedDefaults(t).rows[DefaultPrompts[i].0].templateText == DefaultPrompts[i].1
  {
    DefaultTypesDistinct();
    InsertAllStores(t, DefaultPrompts);
    assert SeedDefaults(t) == InsertAll(t, DefaultPrompts);
  }

  /** The chat answers without a service even for a missing email; with one, a missing email is 404. */
  lemma ChatServiceBeforeLookup(emails: map<int, EmailRow>, emailId: int, query: string, service: AiService.GeminiService)
    requires emailId !in emails
    ensures ChatAgent(None, emails, emailId, query).Ok?
    ensures ChatAgent(Some(service), emails, emailId, query) == Err(HttpError(404, "Email not found"))
  {
  }

  /** A found email always gets an answer: the model's text or an "Error: " message, never a failure. */
  lemma ChatNeverFailsForFoundEmail(service: AiService.GeminiService, emails: map<int, EmailRow>, emailId: int, query: string)
    requires emailId in emails
    ensures var r := ChatAgent(Some(service), emails, emailId, query);
      var reply := service.model(AiService.Respond(QuotedEmail(emails[emailId]), query));
      && r.Ok?
      && (reply.Replied? ==> r.value == reply.text)
      && (reply.Raised? ==> StartsWith(r.value, "Error: "))
  {
  }

  /** A generated draft replies to the subject with "Re: " and asks with the default instruction when none is given. */
  lemma DraftRepliesToSubject(service: AiService.GeminiService, emails: map<int, EmailRow>, emailId: int, requested: Option<string>)
    requires emailId in emails
    ensures var r := GenerateDraft(Some(service), emails, emailId, requested);
      && r.Ok?
      && StartsWith(r.value.subject, "Re: ") && r.value.subject[4..] == emails[emailId].subject
      && (requested.None? || requested == Some("") ==>
            r.value.body == AiService.GenerateDraft(service, QuotedEmail(emails[emailId]), "Draft a professional reply"))
  {
  }
}
