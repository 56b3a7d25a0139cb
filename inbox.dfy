/**
 * The earlier inbox list (`Inbox`, kept commented out in the repository): the
 * derived category choices and the three-way filter over query, category and
 * read status, plus the case-insensitive badge style and the category label.
 */
module Inbox {
  import opened Base
  import opened Text
  import opened Seqs
  import opened Mail

  const All := "All"

  /** The read-status selector. */
  datatype StatusFilter = AnyStatus | Read | Unread

  // ---------------------------------------------------------------- categories

  /** `emails.map(e => e.category).filter(Boolean)`: the present, non-empty categories in list order. */
  function PresentCategories(emails: seq<Email>): (r: seq<string>)
    ensures forall c :: c in r <==> c != "" && exists i :: 0 <= i < |emails| && emails[i].category == Some(c)
  {
    if emails == [] then []
    else
      var rest := PresentCategories(emails[1..]);
      assert forall c :: (exists i :: 0 <= i < |emails[1..]| && emails[1..][i].category == Some(c))
                         ==> (exists i :: 0 <= i < |emails| && emails[i].category == Some(c));
      var c := emails[0].category;
      if c.Some? && c.value != "" then [c.value] + rest else rest
  }

  /**
   * The `categories` memo: "All" followed by the distinct non-empty categories of
   * the emails, sorted ascending.
   */
  function Categories(emails: seq<Email>): (r: seq<string>)
    ensures |r| >= 1 && r[0] == All
    ensures Ascending(r[1..]) && NoDuplicates(r[1..])
    ensures forall c :: c in r[1..] <==>
              c != "" && exists i :: 0 <= i < |emails| && emails[i].category == Some(c)
  {
    var unique := Dedup(PresentCategories(emails));
    SortOrders(unique);
    forall c ensures c in Sort(unique) <==> c in unique {
      SortMembership(unique, c);
    }
    [All] + Sort(unique)
  }

  // ---------------------------------------------------------------- filter

  /** The query occurs in the subject, the body or the sender, ignoring case. */
  predicate MatchesSearch(e: Email, searchQuery: string)
  {
    var query := Lower(searchQuery);
    Contains(Lower(e.subject), query) || Contains(Lower(e.body), query) || Contains(Lower(e.sender), query)
  }

  /** "All" passes every email; any other choice requires exactly that category. */
  predicate MatchesCategory(e: Email, categoryFilter: string)
  {
    categoryFilter == All || e.category == Some(categoryFilter)
  }

  predicate MatchesStatus(e: Email, statusFilter: StatusFilter)
  {
    match statusFilter
    case AnyStatus => true
    case Read => e.isRead
    case Unread => !e.isRead
  }

  predicate Passes(e: Email, searchQuery: string, categoryFilter: string, statusFilter: StatusFilter)
  {
    MatchesSearch(e, searchQuery) && MatchesCategory(e, categoryFilter) && MatchesStatus(e, statusFilter)
  }

  /** The `filteredEmails` memo: the emails passing all three tests, in their given order. */
  function FilteredEmails(emails: seq<Email>, searchQuery: string, categoryFilter: string,
                          statusFilter: StatusFilter): (r: seq<Email>)
    ensures IsSubsequence(r, emails)
    ensures forall e :: e in r <==> e in emails && Passes(e, searchQuery, categoryFilter, statusFilter)
    ensures forall e :: multiset(r)[e] == if Passes(e, searchQuery, categoryFilter, statusFilter) then multiset(emails)[e] else 0
  {
    FilterMembership(emails, e => Passes(e, searchQuery, categoryFilter, statusFilter));
    Filter(emails, e => Passes(e, searchQuery, categoryFilter, statusFilter))
  }

  /** With no query, "All" categories and "All" statuses, the list is shown unchanged. */
  lemma NoFilterShowsAll(emails: seq<Email>)
    ensures FilteredEmails(emails, "", All, AnyStatus) == emails
  {
    forall i | 0 <= i < |emails|
      ensures Passes(emails[i], "", All, AnyStatus)
    {
      ContainsEmpty(Lower(emails[i].subject));
    }
    FilterKeepsAll(emails, e => Passes(e, "", All, AnyStatus));
  }

  /** An email without a category never passes a specific category. */
  lemma UncategorisedNeverMatches(e: Email, categoryFilter: string)
    requires categoryFilter != All && e.category.None?
    ensures !MatchesCategory(e, categoryFilter)
  {
  }

  /** Two emails, one unread "Urgent Work", one read "Meeting": choosing "Meeting" keeps only the second. */
  lemma MeetingScenario(first: Email, second: Email)
    requires first.id == 1 && !first.isRead && first.category == Some("Urgent Work")
    requires second.id == 2 && second.isRead && second.category == Some("Meeting")
    ensures FilteredEmails([first, second], "", "Meeting", AnyStatus) == [second]
  {
    var p := e => Passes(e, "", "Meeting", AnyStatus);
    ContainsEmpty(Lower(second.subject));
    assert !p(first) && p(second);
    assert [first, second][1..] == [second];
    assert [second][1..] == [];
    assert Filter([second], p) == [second] + Filter([], p);
    assert Filter([first, second], p) == Filter([second], p);
  }

  // ---------------------------------------------------------------- badge

  const DefaultStyles := "bg-blue-50 text-blue-600 border-blue-100"

  /** `getCategoryStyles`: chosen on the lower-cased category; unknown or missing ones get the default. */
  function CategoryStyles(category: Option<string>): (r: string)
    ensures category.None? ==> r == DefaultStyles
    ensures category.Some? && Lower(category.value) == "urgent work" ==> r == "bg-rose-100 text-rose-700 border-rose-200"
    ensures category.Some? && Lower(category.value) == "meeting" ==> r == "bg-violet-100 text-violet-700 border-violet-200"
    ensures category.Some? && Lower(category.value) == "newsletter" ==> r == "bg-emerald-100 text-emerald-700 border-emerald-200"
    ensures category.Some? && Lower(category.value) == "spam" ==> r == "bg-slate-100 text-slate-600 border-slate-200"
    ensures category.Some? && Lower(category.value) !in {"urgent work", "meeting", "newsletter", "spam"} ==> r == DefaultStyles
  {
    if category.None? then DefaultStyles
    else
      var c := Lower(category.value);
      if c == "urgent work" then "bg-rose-100 text-rose-700 border-rose-200"
      else if c == "meeting" then "bg-violet-100 text-violet-700 border-violet-200"
      else if c == "newsletter" then "bg-emerald-100 text-emerald-700 border-emerald-200"
      else if c == "spam" then "bg-slate-100 text-slate-600 border-slate-200"
      else DefaultStyles
  }

  /** The style does not depend on letter case. */
  lemma StylesIgnoreCase(a: string, b: string)
    requires Lower(a) == Lower(b)
    ensures CategoryStyles(Some(a)) == CategoryStyles(Some(b))
  {
  }

  /** The badge text `email.category || 'Processing'`: a missing or empty category reads "Processing". */
  function CategoryLabel(category: Option<string>): (r: string)
    ensures category.None? || category.value == "" ==> r == "Processing"
    ensures category.Some? && category.value != "" ==> r == category.value
  {
    if category.Some? && category.value != "" then category.value else "Processing"
  }
}
