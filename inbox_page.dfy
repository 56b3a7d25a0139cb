/**
 * The live inbox list (`InboxPage`): fetch state, case-insensitive search over
 * subject and sender, the relative time label, the category badge style and the
 * action-item badge.
 */
module InboxPage {
  import opened Base
  import opened Text
  import opened Seqs
  import opened Mail

  // ---------------------------------------------------------------- category style

  const DefaultStyle := "bg-gray-50 text-gray-700 border-gray-200"

  const CategoryStyles: map<string, string> := map[
    "Urgent Work" := "bg-red-50 text-red-700 border-red-200",
    "Meeting" := "bg-purple-50 text-purple-700 border-purple-200",
    "Newsletter" := "bg-blue-50 text-blue-700 border-blue-200",
    "Spam" := "bg-gray-50 text-gray-600 border-gray-200",
    "Personal" := "bg-green-50 text-green-700 border-green-200"
  ]

  /**
   * `getCategoryStyle`: the class list of one of the five known categories (case
   * sensitive), the default otherwise, including for a missing category.
   */
  function CategoryStyle(category: Option<string>): (r: string)
    ensures category.Some? && category.value in CategoryStyles ==> r == CategoryStyles[category.value]
    ensures r == DefaultStyle <==> !(category.Some? && category.value in CategoryStyles)
  {
    if category.Some? && category.value in CategoryStyles then CategoryStyles[category.value] else DefaultStyle
  }

  // ---------------------------------------------------------------- time label

  const MsPerHour := 1000 * 60 * 60

  /** What `formatTime` shows; the month-and-day form is rendered by the locale. */
  datatype TimeLabel = JustNow | HoursAgo(hours: int) | MonthDay(timestamp: int)

  /**
   * `formatTime(timestamp)` evaluated at instant `now`, both in milliseconds:
   * whole hours elapsed, rounded down.
   */
  function FormatTime(timestamp: int, now: int): (r: TimeLabel)
    ensures r == JustNow <==> now - timestamp < MsPerHour
    ensures r.HoursAgo? ==>
              1 <= r.hours < 24 && r.hours * MsPerHour <= now - timestamp < (r.hours + 1) * MsPerHour
    ensures r.MonthDay? <==> now - timestamp >= 24 * MsPerHour
    ensures r.MonthDay? ==> r.timestamp == timestamp
  {
    // For a positive divisor Dafny's division rounds down, as Math.floor does.
    var hours := (now - timestamp) / MsPerHour;
    if hours < 1 then JustNow
    else if hours < 24 then HoursAgo(hours)
    else MonthDay(timestamp)
  }

  /** The text of a label; the locale date is not modelled. */
  function TimeText(t: TimeLabel): (r: Option<string>)
    ensures t == JustNow ==> r == Some("Just now")
    ensures t.HoursAgo? && t.hours >= 0 ==>
              && r.Some? && |r.value| > 5 && r.value[|r.value| - 5..] == "h ago"
              && AllDigits(r.value[..|r.value| - 5]) && DecimalValue(r.value[..|r.value| - 5]) == t.hours
    ensures t.MonthDay? ==> r.None?
  {
    match t
    case JustNow => Some("Just now")
    case HoursAgo(h) =>
      if h < 0 then None
      else
        DecimalRoundTrip(h);
        var text := NatToString(h) + "h ago";
        assert text[..|text| - 5] == NatToString(h);
        Some(text)
    case MonthDay(_) => None
  }

  /** A timestamp in the future reads "Just now". */
  lemma FutureIsJustNow(timestamp: int, now: int)
    requires timestamp > now
    ensures FormatTime(timestamp, now) == JustNow
  {
  }

  // ---------------------------------------------------------------- action-item badge

  /**
   * The action-item badge: absent unless the email has at least one action item;
   * the count followed by "action item", with a plural "s" exactly when the count exceeds one.
   */
  function ActionBadge(items: Option<seq<ActionItem>>): (r: Option<string>)
    ensures r.Some? <==> items.Some? && |items.value| > 0
    ensures r.Some? ==>
      var n := |items.value|;
      StartsWith(r.value, NatToString(n)) && DecimalValue(NatToString(n)) == n
      && (r.value[|r.value| - 1] == 's' <==> n > 1)
  {
    if items.None? || |items.value| == 0 then None
    else
      var n := |items.value|;
      DecimalRoundTrip(n);
      Some(NatToString(n) + " action item" + (if n > 1 then "s" else ""))
  }

  // ---------------------------------------------------------------- search

  /** The search test: the query occurs in the subject or in the sender, ignoring case. */
  predicate MatchesSearch(e: Email, query: string)
  {
    Contains(Lower(e.subject), Lower(query)) || Contains(Lower(e.sender), Lower(query))
  }

  /** `filteredEmails`: the emails passing the search, in their fetched order. */
  function FilteredEmails(emails: seq<Email>, query: string): (r: seq<Email>)
    ensures IsSubsequence(r, emails)
    ensures forall e :: e in r <==> e in emails && MatchesSearch(e, query)
    ensures forall e :: multiset(r)[e] == if MatchesSearch(e, query) then multiset(emails)[e] else 0
  {
    FilterMembership(emails, e => MatchesSearch(e, query));
    Filter(emails, e => MatchesSearch(e, query))
  }

  /** An empty search shows every email, in order. */
  lemma EmptySearchShowsAll(emails: seq<Email>)
    ensures FilteredEmails(emails, "") == emails
  {
    forall i | 0 <= i < |emails|
      ensures MatchesSearch(emails[i], "")
    {
      ContainsEmpty(Lower(emails[i].subject));
    }
    FilterKeepsAll(emails, e => MatchesSearch(e, ""));
  }

  /** The body is not searched: two emails that differ only in their body match the same queries. */
  lemma BodyNotSearched(e: Email, body: string, query: string)
    ensures MatchesSearch(e.(body := body), query) == MatchesSearch(e, query)
  {
  }

  // ---------------------------------------------------------------- page state

  /** The page's state hooks. */
  class Controller {
    var emails: seq<Email>
    var loading: bool
    var searchQuery: string

    /** Mounting: no emails yet, loading, empty search. */
    constructor ()
      ensures emails == [] && loading && searchQuery == ""
    {
      emails := [];
      loading := true;
      searchQuery := "";
    }

    /** `fetchEmails` after its await: the response replaces the list; a failure keeps it. */
    method FetchEmailsResumed(outcome: Outcome<seq<Email>>)
      modifies this
      ensures emails == (if outcome.Succeeded? then outcome.payload else old(emails))
      ensures !loading && searchQuery == old(searchQuery)
    {
      if outcome.Succeeded? {
        emails := outcome.payload;
      }
      loading := false;
    }

    /** Typing in the search box. */
    method SearchChanged(query: string)
      modifies this
      ensures searchQuery == query && emails == old(emails) && loading == old(loading)
    {
      searchQuery := query;
    }

    /** The rows rendered (after loading) and counted in the header. */
    function Visible(): (r: seq<Email>)
      reads this
      ensures IsSubsequence(r, emails)
      ensures searchQuery == "" ==> r == emails
    {
      EmptySearchShowsAll(emails);
      FilteredEmails(emails, searchQuery)
    }
  }
}
