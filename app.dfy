/** The application shell: which view is shown and which email is selected. */
module App {
  import opened Base
  import opened Mail

  /** The values `currentView` takes. */
  datatype View = InboxView | DetailView | BrainView

  /** The pages the shell can render. */
  datatype Page = InboxPage | EmailDetailPage(email: Email) | PromptBrainPage

  /** The view the sidebar highlights: the detail view counts as the inbox. */
  function NavHighlight(view: View): (r: View)
    ensures r != DetailView
    ensures view != DetailView ==> r == view
  {
    if view == DetailView then InboxView else view
  }

  /** The three conditional children of the layout, in order. */
  function RenderedPages(view: View, selected: Option<Email>): (r: seq<Page>)
    ensures |r| <= 1
    ensures r == [] <==> view == DetailView && selected.None?
    ensures forall p :: p in r && p.EmailDetailPage? ==> view == DetailView && selected == Some(p.email)
  {
    (if view == InboxView then [InboxPage] else [])
    + (if view == DetailView && selected.Some? then [EmailDetailPage(selected.value)] else [])
    + (if view == BrainView then [PromptBrainPage] else [])
  }

  /** The shell's two state hooks. */
  class Controller {
    var currentView: View
    var selectedEmail: Option<Email>

    constructor ()
      ensures currentView == InboxView && selectedEmail == None
    {
      currentView := InboxView;
      selectedEmail := None;
    }

    /** `handleSelectEmail`: remember the email and open the detail view. */
    method HandleSelectEmail(email: Email)
      modifies this
      ensures selectedEmail == Some(email) && currentView == DetailView
      ensures Rendered() == [EmailDetailPage(email)]
    {
      selectedEmail := Some(email);
      currentView := DetailView;
    }

    /** `handleBackToInbox`: forget the email and show the inbox. */
    method HandleBackToInbox()
      modifies this
      ensures selectedEmail == None && currentView == InboxView
      ensures Rendered() == [InboxPage]
    {
      selectedEmail := None;
      currentView := InboxView;
    }

    /** The sidebar's `onNavigate`: only the view changes; the selected email is kept. */
    method Navigate(view: View)
      modifies this
      ensures currentView == view && selectedEmail == old(selectedEmail)
    {
      currentView := view;
    }

    function Highlighted(): View
      reads this
    {
      NavHighlight(currentView)
    }

    function Rendered(): seq<Page>
      reads this
    {
      RenderedPages(currentView, selectedEmail)
    }
  }
}
