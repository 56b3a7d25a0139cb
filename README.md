# AiMailHelperr, modelled in Dafny

AiMailHelperr is an email triage assistant. A FastAPI backend ingests a mock inbox and enriches each
message with a category, a summary and action items produced by Gemini. It also serves the emails,
the prompt templates, a per-email chat agent and a reply-draft generator. A React frontend lists the
inbox with search, opens an email next to an assistant chat, and edits the prompt templates.

This project models the state logic of both sides and proves what the code promises:

- **Frontend state as controllers.** Each React component with state becomes a `class` whose fields
  are its `useState` slots. Each handler becomes a method with a `modifies` clause.
  - An `async` handler is split at its `await`. One method runs the part before it and returns the
    request it issues. A second method runs the resumption, including any `finally`, with the
    request's outcome as a parameter.
  - Each method's contract ties the new state to a pure `Step` function over a value `Session`, and
    the lemmas are stated over `Step` and `Run` (a sequence of events).
  - A timer set by `setTimeout` is an explicit event.
- **Pure views as functions.** The category and filter memos, the badge and time labels, the navigation
  highlight and the rendered-page choice are functions with contracts and lemmas.
- **Backend.** The two tables are maps held by a `Database` object, with ingest and prompt upsert as
  methods. The enrichment, the markdown-fence cleanup, the read-side JSON parsing and the chat and draft
  endpoints are functions.
  - The Gemini model is an oracle `AiRequest -> AiReply`, whose reply is text or a raised exception.
    `json.loads`/`json.dumps` are oracles in a `Json` value. The mock inbox file is an optional list.

Modules, one per source file, plus shared ones:

| module | file | models |
|---|---|---|
| `Base`, `Text`, `Seqs`, `Mail` | base.dfy, text.dfy, seqs.dfy, mail.dfy | options and results; JavaScript and Python string operations (lower-casing, `includes`, `trim`, `strip`, `replace`, decimal text, code-unit order); `filter`, `Set` de-duplication and `sort`; the shared email, action-item, draft and prompt records |
| `InboxPage` | inbox_page.dfy | frontend/pages/Inbox.jsx |
| `Inbox` | inbox.dfy | frontend/components/Inbox.tsx |
| `App` | app.dfy | App.tsx |
| `EmailDetailPage` | email_detail_page.dfy | frontend/pages/EmailDetail.jsx |
| `EmailDetail` | email_detail.dfy | frontend/components/EmailDetail.tsx |
| `PromptBrainPage` | prompt_brain_page.dfy | frontend/pages/PromptBrain.jsx |
| `PromptBrain` | prompt_brain.dfy | frontend/components/PromptBrain.tsx |
| `AiService` | ai_service.dfy | backend/ai_service.py |
| `Backend` | backend.dfy | backend/main.py |

Behaviours of the code that the proofs make explicit:

- **A late chat reply lands in the wrong transcript.** Nothing ties a resumption to the email it was
  issued for. A reply requested for one email that arrives after the page switched to another email
  is appended under the new email's greeting (`EmailDetailPage.LateReplyLandsInNewTranscript`).
  - This holds for a page instance that is handed a new `email` prop. `App` never does that: it
    shows the detail page only in the detail view, and an email is chosen in the inbox view
    (App.tsx:26-31), so going back unmounts the page. Within the page, nothing discards a reply
    whose email is no longer the one shown.
- **Enter sends while a reply is loading.** The send button is disabled while loading, but the Enter
  key is not (`EmailDetailPage.EnterIgnoresLoading`). The older component has no loading guard at all.
- **A save can wipe another save's badge.** The live prompt page marks a saved prompt by spreading the
  `saved` map its handler closed over. When two saves start from the same render, the second success
  erases the first's badge (`PromptBrainPage.LostUpdate`).
- **A timer can hide another save's note.** In the older prompt component, the single `saving` slot is
  cleared by any save's timer. That includes a timer from a save other than the one shown
  (`PromptBrain.TimerClearsLaterSave`).
- **Repeated ids fail ingest after the delete.** When the mock inbox repeats an id, the final commit
  fails. If prompts were seeded in the same request, the delete of all emails was already committed
  with them, so the email table ends empty (`Backend.IngestDuplicateIds`).

## Model

| member | source | states |
|---|---|---|
| InboxPage.CategoryStyle | frontend/pages/Inbox.jsx:5-14 | Each of the five known categories maps to its own class list. Every other category, and a missing one, gets the default, and only those do. An identical copy is at frontend/pages/EmailDetail.jsx:5-14. |
| InboxPage.FormatTime | frontend/pages/Inbox.jsx:16-25 | "Just now" exactly when less than an hour has elapsed. An hour label holds the whole hours elapsed, between 1 and 23, with floor bounds. The month-and-day form appears exactly when 24 hours or more have elapsed. |
| InboxPage.TimeText | frontend/pages/Inbox.jsx:22-24 | The hour label reads as the decimal hour count followed by "h ago". "Just now" reads as itself. |
| InboxPage.FutureIsJustNow | frontend/pages/Inbox.jsx:19-22 | A timestamp later than now reads "Just now". |
| InboxPage.ActionBadge | frontend/pages/Inbox.jsx:126-131 | The badge exists exactly when the email has at least one action item. It starts with the decimal count and ends in "s" exactly when the count exceeds one. |
| InboxPage.FilteredEmails | frontend/pages/Inbox.jsx:62-65 | The result is a subsequence of the fetched emails, in order. An email is in it exactly when the lower-cased query occurs in its lower-cased subject or sender. Each matching email keeps its number of occurrences, and no other email is kept. |
| InboxPage.EmptySearchShowsAll | frontend/pages/Inbox.jsx:62-65 | An empty query shows every email, unchanged and in order. |
| InboxPage.BodyNotSearched | frontend/pages/Inbox.jsx:62-65 | Changing an email's body never changes whether it matches. |
| InboxPage.Controller.constructor | frontend/pages/Inbox.jsx:43-45 | The page mounts with no emails, loading, and an empty search. |
| InboxPage.Controller.FetchEmailsResumed | frontend/pages/Inbox.jsx:51-60 | A successful fetch replaces the list and a failed one keeps it. Loading ends either way. |
| InboxPage.Controller.SearchChanged | frontend/pages/Inbox.jsx:83 | Typing sets the query and changes nothing else. |
| InboxPage.Controller.Visible | frontend/pages/Inbox.jsx:62-65 | The rendered rows are a subsequence of the emails, and all of them while the query is empty. |
| Inbox.PresentCategories | frontend/components/Inbox.tsx:26 | A string is listed exactly when it is the non-empty category of some email. |
| Inbox.Categories | frontend/components/Inbox.tsx:25-28 | The list is "All" followed by the distinct non-empty categories, in ascending order, each once. No other value appears. |
| Inbox.FilteredEmails | frontend/components/Inbox.tsx:30-44 | The result keeps the input order. An email is kept exactly when it passes the search, category and status tests. Each passing email keeps its number of occurrences, and no other email is kept. |
| Inbox.NoFilterShowsAll | frontend/components/Inbox.tsx:30-44 | An empty query with "All" categories and "All" statuses returns the input unchanged. |
| Inbox.UncategorisedNeverMatches | frontend/components/Inbox.tsx:37 | Category choice is strict equality: an email without a category never passes a specific category. |
| Inbox.MeetingScenario | frontend/components/Inbox.tsx:37-42 | With an unread "Urgent Work" email and a read "Meeting" email, choosing "Meeting" keeps only the second. |
| Inbox.CategoryStyles | frontend/components/Inbox.tsx:10-18 | A missing category gets the default style. The four known names, in any letter case, get the rose, violet, emerald and slate styles. Any other name gets the default style. |
| Inbox.StylesIgnoreCase | frontend/components/Inbox.tsx:11 | Two categories that differ only in letter case get the same style. |
| Inbox.CategoryLabel | frontend/components/Inbox.tsx:111 | A missing or empty category reads "Processing". Any other category reads as itself. |
| App.NavHighlight | App.tsx:23 | The highlighted view is never the detail view. The detail view counts as the inbox, and every other view passes through. |
| App.RenderedPages | App.tsx:26-34 | At most one page renders. Nothing renders exactly when the detail view has no selection. The detail page renders only for the selected email. |
| App.Controller.constructor | App.tsx:8-9 | The shell starts on the inbox with no selection. |
| App.Controller.HandleSelectEmail | App.tsx:11-14 | Selecting stores the email and opens the detail view. That email's detail page is then the only page rendered. |
| App.Controller.HandleBackToInbox | App.tsx:16-19 | Going back clears the selection and shows the inbox page alone. |
| App.Controller.Navigate | App.tsx:24 | Sidebar navigation changes the view and keeps the selected email. |
| EmailDetailPage.EmailChangeResets | frontend/pages/EmailDetail.jsx:29-32 | A new email id resets the transcript to the greeting alone and clears the draft, as mounting does. The input and the loading flag are kept. |
| EmailDetailPage.BlankSendIsNoOp | frontend/pages/EmailDetail.jsx:35 | Sending a blank input changes nothing and issues no request. |
| EmailDetailPage.WhitespaceIsBlank | frontend/pages/EmailDetail.jsx:35 | An input made only of spaces, tabs and line breaks counts as blank. |
| EmailDetailPage.SendAppendsUserTurn | frontend/pages/EmailDetail.jsx:34-43 | A non-blank send appends exactly one user turn with the input as typed. It clears the input, sets loading, and asks about the current email. |
| EmailDetailPage.EnterIgnoresLoading | frontend/pages/EmailDetail.jsx:259-266 | While loading, the send button is disabled, yet Enter still issues a second request. |
| EmailDetailPage.ChatReplyAppendsOneTurn | frontend/pages/EmailDetail.jsx:42-49 | A reply appends exactly one assistant turn after the old transcript: the response, or "Sorry, I encountered an error.". Loading ends. |
| EmailDetailPage.QuickActionSendsFixedPrompt | frontend/pages/EmailDetail.jsx:52-69 | A quick action appends its fixed prompt as a user turn and asks with it, whatever the loading state. Its reply turn uses "Error processing request." on failure. |
| EmailDetailPage.DraftReplyKeepsTranscript | frontend/pages/EmailDetail.jsx:71-81 | A draft outcome never touches the transcript. Success stores the draft, failure keeps the old one, and loading ends. |
| EmailDetailPage.TranscriptOnlyGrows | frontend/pages/EmailDetail.jsx:34-81 | Across any events without an email change, the old transcript stays a prefix of the new one. |
| EmailDetailPage.LateReplyLandsInNewTranscript | frontend/pages/EmailDetail.jsx:29-49 | A reply requested for one email that resumes after a switch to another is appended under the new email's greeting. |
| EmailDetailPage.Controller.constructor | frontend/pages/EmailDetail.jsx:17-32 | Mounting shows the greeting alone, an empty input, no draft, not loading. |
| EmailDetailPage.Controller.EmailChanged | frontend/pages/EmailDetail.jsx:29-32 | The reset effect runs only when the id differs. |
| EmailDetailPage.Controller.InputChanged | frontend/pages/EmailDetail.jsx:259 | Typing replaces the input. |
| EmailDetailPage.Controller.HandleSendMessage | frontend/pages/EmailDetail.jsx:34-43 | The new state and the issued chat request are those of the send event. |
| EmailDetailPage.Controller.ResumeSendMessage | frontend/pages/EmailDetail.jsx:44-49 | The reply or the apology is appended, and loading ends. |
| EmailDetailPage.Controller.HandleQuickAction | frontend/pages/EmailDetail.jsx:52-62 | Loading is set, the fixed prompt is appended, and the chat request is issued. |
| EmailDetailPage.Controller.ResumeQuickAction | frontend/pages/EmailDetail.jsx:63-68 | The reply or "Error processing request." is appended, and loading ends. |
| EmailDetailPage.Controller.HandleGenerateDraft | frontend/pages/EmailDetail.jsx:71-74 | Loading is set and the draft request is issued. |
| EmailDetailPage.Controller.ResumeGenerateDraft | frontend/pages/EmailDetail.jsx:75-80 | A success stores the draft, and loading ends either way. |
| EmailDetailPage.LateReplyScenario | frontend/pages/EmailDetail.jsx:29-49 | On the component: a question about email 1, answered after the switch to email 2, shows under email 2's greeting. |
| EmailDetail.GreetingNamesSender | frontend/components/EmailDetail.tsx:19 | The greeting contains the sender. |
| EmailDetail.EmailChangeResets | frontend/components/EmailDetail.tsx:18-21 | A new email id resets the history to that email's greeting and clears the draft. |
| EmailDetail.SameIdKeepsGreeting | frontend/components/EmailDetail.tsx:18-21 | The reset is keyed on the id alone. An email with the same id but another sender keeps the old greeting, which differs from the new sender's. |
| EmailDetail.SendIgnoresLoading | frontend/components/EmailDetail.tsx:28-36 | A non-blank input is sent even while a reply is outstanding. One user turn is appended and the input is cleared. |
| EmailDetail.DraftOutcome | frontend/components/EmailDetail.tsx:45-56 | A successful draft is stored and announced by one agent turn. A failed one changes only the loading flag. |
| EmailDetail.StepKeepsSettled | frontend/components/EmailDetail.tsx:45-56 | Every possible event keeps the invariant that no draft is being generated while one is shown. |
| EmailDetail.DraftIsFinal | frontend/components/EmailDetail.tsx:174-182 | Once a draft is shown, it stays and no further draft is requested until the email changes. |
| EmailDetail.MountDraftScenario | frontend/components/EmailDetail.tsx:18-56 | A fresh mount shows the draft button. After one successful draft the button is gone and the history is the greeting and the draft notice. |
| EmailDetail.CategoryBadgeUrgent | frontend/components/EmailDetail.tsx:81-84 | The badge is highlighted exactly for "Urgent Work". |
| EmailDetail.Controller.constructor | frontend/components/EmailDetail.tsx:10-21 | Showing an email gives that email's greeting, an empty input, and no draft or loading. |
| EmailDetail.Controller.EmailChanged | frontend/components/EmailDetail.tsx:18-21 | The reset effect runs only when the id differs. |
| EmailDetail.Controller.InputChanged | frontend/components/EmailDetail.tsx:190 | Typing replaces the input. |
| EmailDetail.Controller.HandleSend | frontend/components/EmailDetail.tsx:28-36 | The new state and the issued chat request are those of the send event. |
| EmailDetail.Controller.ResumeSend | frontend/components/EmailDetail.tsx:37-42 | The reply or the apology is appended, and chat loading ends. |
| EmailDetail.Controller.HandleDraft | frontend/components/EmailDetail.tsx:45-48 | Draft loading is set and the draft request is issued. |
| EmailDetail.Controller.ResumeDraft | frontend/components/EmailDetail.tsx:49-55 | A success stores the draft and appends the notice, and draft loading ends. |
| PromptBrainPage.Label | frontend/pages/PromptBrain.jsx:69 | The title is the type with its first underscore made a space, then " Prompt". Every other character is kept. The same expression is at frontend/components/PromptBrain.tsx:53. |
| PromptBrainPage.LabelReplacesFirstUnderscoreOnly | frontend/pages/PromptBrain.jsx:69 | Only the first underscore is replaced: "reply_positive" reads "reply positive Prompt" and "a_b_c" reads "a b_c Prompt". |
| PromptBrainPage.Description | frontend/pages/PromptBrain.jsx:37-43 | The five seeded types get their own description, and every other type gets the fallback. |
| PromptBrainPage.DescriptionFallback | frontend/pages/PromptBrain.jsx:72 | The fallback appears exactly for types other than the five seeded ones. |
| PromptBrainPage.FetchEndsLoading | frontend/pages/PromptBrain.jsx:14-23 | Loading ends whatever the outcome. A failure keeps the prompts, and the badges are untouched. |
| PromptBrainPage.FailedFetchShowsNothing | frontend/pages/PromptBrain.jsx:14-23 | A failed first fetch replaces the spinner with an empty list. |
| PromptBrainPage.SaveSuccessMarks | frontend/pages/PromptBrain.jsx:27-31 | A success sets its type's badge in the map its handler closed over, not in the latest one, and schedules one timer for that type. |
| PromptBrainPage.SaveFailureKeepsSaved | frontend/pages/PromptBrain.jsx:32-34 | A failure leaves the badges unchanged and schedules no timer. |
| PromptBrainPage.TimerUnmarksOnlyItsType | frontend/pages/PromptBrain.jsx:29-31 | A timer clears its own type's badge and leaves every other entry as it was. |
| PromptBrainPage.LostUpdate | frontend/pages/PromptBrain.jsx:25-31 | Two saves started from one render both succeed, and only the second type shows its badge. |
| PromptBrainPage.Controller.constructor | frontend/pages/PromptBrain.jsx:5-12 | The page mounts with no prompts, loading, and no badges. |
| PromptBrainPage.Controller.FetchPromptsResumed | frontend/pages/PromptBrain.jsx:14-23 | The new state is that of the fetch outcome. |
| PromptBrainPage.Controller.HandleSave | frontend/pages/PromptBrain.jsx:25-27 | The save is recorded in flight with the current badge map, and the update request is issued. |
| PromptBrainPage.Controller.ResumeSave | frontend/pages/PromptBrain.jsx:27-34 | The new state is that of the save's outcome. |
| PromptBrainPage.Controller.FireTimer | frontend/pages/PromptBrain.jsx:29-31 | The timer clears its type in the latest map. |
| PromptBrainPage.LostUpdateScenario | frontend/pages/PromptBrain.jsx:25-31 | On the component: after two blurred prompts both save, the first shows no badge and the second does. |
| PromptBrain.SavingShowsForOneType | frontend/components/PromptBrain.tsx:61 | "Saving changes..." shows under at most one prompt type. |
| PromptBrain.LoadEndsLoading | frontend/components/PromptBrain.tsx:14-23 | Loading ends whatever the outcome, and a failed load leaves no prompts. |
| PromptBrain.SaveTakesSlot | frontend/components/PromptBrain.tsx:25-28 | A save takes the slot before its request goes out, overwriting any earlier type. |
| PromptBrain.SaveOutcomes | frontend/components/PromptBrain.tsx:28-34 | A failure clears the slot at once. A success keeps it and schedules a timer, whose firing clears it. |
| PromptBrain.TimerClearsLaterSave | frontend/components/PromptBrain.tsx:25-34 | The first save's timer clears the note of a second save whose request is still in flight. |
| PromptBrain.Controller.constructor | frontend/components/PromptBrain.tsx:5-12 | The component mounts with no prompts, loading, and no slot. |
| PromptBrain.Controller.LoadPromptsResumed | frontend/components/PromptBrain.tsx:14-23 | The new state is that of the load outcome. |
| PromptBrain.Controller.HandleSave | frontend/components/PromptBrain.tsx:25-28 | The slot is set and the update request is issued. |
| PromptBrain.Controller.ResumeSave | frontend/components/PromptBrain.tsx:28-34 | The new state is that of the save's outcome. |
| PromptBrain.Controller.FireTimer | frontend/components/PromptBrain.tsx:30 | The timer clears the slot, whoever holds it. |
| PromptBrain.TimerScenario | frontend/components/PromptBrain.tsx:25-34 | On the component: the second save's note shows, then disappears when the first save's timer fires. |
| AiService.CheckKey | backend/ai_service.py:17-32 | An accepted key is the normalised variable and has at least 30 characters. A missing variable is refused with the "not found" message. |
| AiService.Validated | backend/ai_service.py:28-32 | A cleaned key passes exactly when it is set and has at least 30 characters, and then it is the key itself. A missing or empty key is refused with the "not found" message. |
| AiService.CleanKey | backend/ai_service.py:17-21 | Reading and cleaning the variable gives the cleaned key: a set, non-empty value is normalised and anything else is kept. |
| AiService.ValidateKey | backend/ai_service.py:28-32 | The two guards give exactly the specified check. |
| AiService.NormalisedKeyIsPart | backend/ai_service.py:20-21 | The normalised key is a contiguous part of the raw value. |
| AiService.QuotedKeyNormalises | backend/ai_service.py:20-21 | Surrounding whitespace, then one kind of surrounding quotes, are removed to give back the key. |
| AiService.EmptyQuotesAreMissing | backend/ai_service.py:20-29 | A value of only double quotes inside whitespace, such as `""`, is refused as missing. |
| AiService.ShortKeyRefused | backend/ai_service.py:31-32 | A non-empty normalised key shorter than 30 characters is refused with its length in the message. |
| AiService.StartedIff | backend/ai_service.py:28-43 | The service starts exactly when the key passes and the connection test replies, and it then holds that model. |
| AiService.Init | backend/ai_service.py:16-43 | Cleaning, validation and the connection test give exactly the specified outcome. |
| AiService.GenerateResponse | backend/ai_service.py:45-61 | The result is the model's text, or "Error: " and the exception's message. It never raises. |
| AiService.GenerateDraft | backend/ai_service.py:63-80 | The result is the model's text, or "Error generating draft: " and the exception's message. It never raises. |
| Backend.StartService | backend/main.py:24-29 | The service exists exactly when the constructor succeeds. |
| Backend.CategorizeEmail | backend/main.py:38-57 | Without a service, or when the model raises, the result is "Uncategorized". Otherwise it is the model's text, stripped. |
| Backend.GenerateSummary | backend/main.py:100-118 | Without a service, or when the model raises, the result is "Summary not available". Otherwise it is the model's text, stripped. |
| Backend.NoServiceFallbacks | backend/main.py:38-118 | Without a service, categorisation, summary and action items all fall back. |
| Backend.CategoryIsStripped | backend/main.py:51-54 | A category is the fallback or text with no surrounding whitespace. |
| Backend.SummaryIsStripped | backend/main.py:113-115 | A summary is the fallback or text with no surrounding whitespace. |
| Backend.BeforeFence | backend/main.py:80 | The segment is a fence-free prefix, cut exactly where the first fence starts. |
| Backend.DropJsonTag | backend/main.py:81-82 | A leading "json" is removed and nothing else. The result is a part of the input. |
| Backend.CleanFences | backend/main.py:78-83 | Text starting with a fence becomes the part before the next fence, without a leading "json" tag, stripped, and it contains no fence. Other text is kept as it is. |
| Backend.FencedJsonUnwrapped | backend/main.py:76-83 | An answer of the form fence, "json", newline, payload, newline, fence is unwrapped to the payload. |
| Backend.UnfencedTextKept | backend/main.py:79 | Text that does not start with a fence is not cleaned, even when it contains one. |
| Backend.ExtractActionItems | backend/main.py:59-98 | The parsed value is returned exactly when it is a list. The empty list is returned when there is no service, the model raised, or the text is not a list. |
| Backend.StoredActionItems | backend/main.py:188 | No value is stored exactly when the list is empty. |
| Backend.EmptyActionListStoredAsNone | backend/main.py:176-188 | An ingested row stores no action items for an empty list, and the JSON text otherwise. |
| Backend.RowFor | backend/main.py:171-189 | A row keeps the item's id, sender, subject, body, timestamp and read flag, and always has a category and a summary. |
| Backend.IdsOf | backend/main.py:168-180 | Every item's id is among the ids. |
| Backend.IdsOfExactly | backend/main.py:168-180 | The ids are exactly the items' ids. |
| Backend.RowsFor | backend/main.py:168-190 | The pending rows are keyed by exactly the items' ids, each under its own id. |
| Backend.PendingRows | backend/main.py:168-190 | The ingest loop builds exactly the pending rows, and notices a repeated id exactly when ids are not distinct. |
| Backend.Database.constructor | backend/models.py:1-24 | A new database has no emails, no prompts and no prompt id handed out yet. |
| Backend.IngestContentParts | backend/main.py:171 | The text analysed for an item starts with "From: " and the sender, and ends with the body. |
| Backend.Ingested | backend/main.py:120-201 | Without a service or the mock file, ingest fails and changes nothing. It succeeds exactly when the ids are distinct, and then reports the item count and stores rows keyed by exactly the items' ids. With a service and the file, the prompts are seeded. A failure leaves the email table as it was or empty. |
| Backend.Database.Ingest | backend/main.py:120-201 | The response and the tables afterwards are those of the ingest specification, and the invariant holds. |
| Backend.Database.UpdatePrompt | backend/main.py:236-247 | The prompt table becomes the upsert, the emails are unchanged, and the returned prompt is the stored one. |
| Backend.IngestWithoutService | backend/main.py:126-128 | Without a service, ingest fails with 500 and touches nothing. |
| Backend.IngestWithoutData | backend/main.py:131-142 | Without the mock file, ingest fails with 500 and touches nothing. |
| Backend.RowsForItem | backend/main.py:168-190 | With distinct ids, each item's row is stored under its id. |
| Backend.DistinctIdsCount | backend/main.py:193-201 | With distinct ids, there are as many rows as items. |
| Backend.DistinctRows | backend/main.py:168-190 | With distinct ids, the pending rows are keyed by exactly the items' ids, one row per item, each item's row under its id. |
| Backend.IngestReplacesEmails | backend/main.py:144-201 | A successful ingest reports the item count, replaces the whole email table with the pending rows and seeds the prompts. The rows are one per item, each item's row under its id. |
| Backend.IngestDuplicateIds | backend/main.py:144-193 | With repeated ids, ingest fails. The table is empty if prompts were seeded, and as before otherwise. |
| Backend.RepeatedIdNotDistinct | backend/main.py:179-193 | Two items with one id are not distinct. |
| Backend.UpsertSetsPrompt | backend/main.py:236-247 | Upsert stores the text under the type. An existing prompt keeps its id and a new prompt gets a fresh id. Every other prompt is unchanged, and the ids stay sound. |
| Backend.UpsertIdempotent | backend/main.py:236-247 | Upserting the same text twice equals upserting it once. |
| Backend.InsertAllKeepsValid | backend/main.py:160-162 | Inserting prompts keeps the ids sound. |
| Backend.InsertAllStores | backend/main.py:160-162 | Inserting prompts of distinct types adds exactly those types, each with its text. Every other prompt is left as it was. |
| Backend.DefaultTypesDistinct | backend/main.py:153-159 | The five default prompts have distinct types. |
| Backend.SeedKeepsValid | backend/main.py:152-163 | Seeding keeps the ids sound. |
| Backend.SeedOnlyEmpty | backend/main.py:152 | Seeding a non-empty table changes nothing. |
| Backend.SeedEmptyTable | backend/main.py:152-163 | Seeding an empty table stores exactly the default types, each with its default text. |
| Backend.ReadActionItems | backend/main.py:208-213 | An absent value reads as absent. A list is read back only from non-empty text. |
| Backend.ReadActionItemsCases | backend/main.py:208-213 | Text that fails to parse reads as the empty list, JSON `null` reads as absent, any other non-list fails the response, and a list is returned. |
| Backend.ReadEmail | backend/main.py:223-230 | A row reads back exactly when its action items do. The email then carries every column of the row unchanged, with the action items read back. |
| Backend.GetEmail | backend/main.py:217-230 | A missing id gives 404 "Email not found". A present id gives the row read back. |
| Backend.GetEmails | backend/main.py:203-215 | The list succeeds exactly when every row reads back, and then holds every row read back, under the same ids. |
| Backend.IngestThenRead | backend/main.py:171-213 | With a faithful JSON codec, an ingested row reads back with the item's fields and the extracted action items, or none when the list was empty. |
| Backend.ChatAgent | backend/main.py:249-264 | Without a service the result is the message, not an error. With one, a missing email gives 404 and a found one gets the service's answer. |
| Backend.ChatServiceBeforeLookup | backend/main.py:251-256 | The service check comes before the lookup: a missing email still gets the message when there is no service. |
| Backend.ChatNeverFailsForFoundEmail | backend/main.py:258-264 | A found email always gets an answer: the model's text or an "Error: " message. |
| Backend.Instruction | backend/main.py:278 | A missing or empty instruction becomes "Draft a professional reply". Any other instruction is kept. |
| Backend.GenerateDraft | backend/main.py:266-282 | Without a service the result is the "Error" draft, and with one a missing email gives 404. A found email gets the subject "Re: " and its subject, and the body the draft generator writes for the quoted email with the user's instruction, or the default one when none or an empty one is given. |
| Backend.DraftRepliesToSubject | backend/main.py:275-282 | A generated draft's subject is "Re: " followed by the email's subject. The default instruction is used when none is given. |

## Left out

- I/O and foreign code are oracles or parameters, not models:
  - Gemini calls: the oracle receives the request kind and its inputs, not the prompt wording.
  - `json.loads`/`json.dumps`, SQLAlchemy sessions, and reading `mock_inbox.json`.
  - A malformed mock file, which raises an unhandled error, is not modelled.
- Backend.ExtractActionItems: parsed lists are lists of action items. A list of other JSON values, which fails response validation when read back, is not distinguished.
- Backend.GetEmails: returns the rows keyed by id. The order of the returned list is not modelled.
- Backend.Database.Ingest: a failure of the delete, which the code only logs, is not modelled.
- Backend.GenerateDraft: the endpoint's own `except` branch is not modelled. It cannot be reached, because the draft generator it calls catches every exception itself.
- The `prompt_type` uniqueness of the prompts table is built into the model: prompts are keyed by type.
  - New prompt ids are one more than the last id handed out. SQLite assigns one more than the largest id, and the two agree because the table's invariant keeps the last id handed out in the table and prompts are never deleted.
- `get_prompts` returns the prompt table as it is, and is not modelled separately.
- Lower-casing covers ASCII letters only. Strings are sequences of code points, so `sort` compares code points where JavaScript compares UTF-16 units; the two agree on the Basic Multilingual Plane.
- `new Date()`, `toLocaleDateString` and `toLocaleString` are left out. Times are integer milliseconds, and the month-and-day label carries only its timestamp.
- Lookups in plain JavaScript objects that can hit inherited keys, such as `"constructor"`, are not
  modelled: `getCategoryStyle`'s style table in Inbox.jsx, and `promptDescriptions[type]` and
  `saved[type]` in PromptBrain.jsx. The model treats each object as a map of its own keys only.
- `frontend/services/api.ts` (HTTP wrappers and logging) and `frontend/components/Layout.jsx` (presentational sidebar) are not part of this model. Calls are modelled as an issued request plus a resumption carrying its outcome.
- Markup, styling, skeletons, scroll-into-view effects and console logging are left out.
- The older components show an empty history for one render before their reset effect runs. The model starts after that effect.
- App remounts the detail page for each selection. Within App, a late reply therefore reaches an unmounted page. The late-reply lemmas are about one page instance that receives a new `email` prop.
- Timer delays (2 seconds and 1 second) are not modelled. Timers are explicit events that fire in any order relative to other events.
