/**
 * The MySQL data browser (the MySQLDataViewer component): a three-level
 * projects / conversations / messages view with pagination, going back up a
 * level, and the search guard. The rows the server returns are opaque
 * (`Row`); every server answer is a parameter, `None` when the call failed.
 */
module DataViewer {
  import opened Wrappers
  import Text

  datatype View = ProjectsView | ConversationsView | MessagesView

  datatype Pagination = Pagination(limit: nat, offset: nat, total: nat)

  datatype Viewer<Row> = Viewer(
    projects: seq<Row>, conversations: seq<Row>, messages: seq<Row>,
    currentView: View, selectedProject: string, selectedConversation: string,
    searchTerm: string, pagination: Pagination)

  function Initial<Row>(): Viewer<Row> {
    Viewer([], [], [], ProjectsView, "", "", "", Pagination(20, 0, 0))
  }

  /** A call of `loadProjects`, `loadConversations` or `loadMessages`: which list, for which key, from which offset. */
  datatype Load = Load(view: View, key: string, offset: nat)

  /** A page answered by the server: its rows and the total count. */
  datatype Page<Row> = Page(data: seq<Row>, total: nat)

  /** The load a page move triggers in the current view, keyed by the current selection. */
  function LoadAt<Row>(s: Viewer<Row>, offset: nat): (l: Load)
    ensures l.view == s.currentView && l.offset == offset
    ensures l.view == ConversationsView ==> l.key == s.selectedProject
    ensures l.view == MessagesView ==> l.key == s.selectedConversation
  {
    match s.currentView
    case ProjectsView => Load(ProjectsView, "", offset)
    case ConversationsView => Load(ConversationsView, s.selectedProject, offset)
    case MessagesView => Load(MessagesView, s.selectedConversation, offset)
  }

  /** `nextPage`: loads the page after this one only when it starts below the total. */
  function NextPage<Row>(s: Viewer<Row>): (r: Option<Load>)
    ensures r.Some? <==> s.pagination.offset + s.pagination.limit < s.pagination.total
    ensures r.Some? ==> r.value == LoadAt(s, s.pagination.offset + s.pagination.limit)
    ensures r.Some? ==> r.value.offset < s.pagination.total
  {
    var newOffset := s.pagination.offset + s.pagination.limit;
    if newOffset < s.pagination.total then Some(LoadAt(s, newOffset)) else None
  }

  /** `prevPage`: always loads, one page back, clamped at 0. */
  function PrevPage<Row>(s: Viewer<Row>): (l: Load)
    ensures l == LoadAt(s, l.offset)
    ensures l.offset <= s.pagination.offset
    ensures s.pagination.offset >= s.pagination.limit ==> l.offset + s.pagination.limit == s.pagination.offset
    ensures s.pagination.offset < s.pagination.limit ==> l.offset == 0
  {
    var o := s.pagination.offset - s.pagination.limit;
    LoadAt(s, if o > 0 then o else 0)
  }

  /**
   * A load's successful answer: the list of that view is replaced and the
   * pagination moves to the loaded offset and the server's total; loading
   * conversations or messages also selects the key and switches the view.
   * A failed load changes nothing.
   */
  function ApplyLoad<Row>(s: Viewer<Row>, l: Load, answer: Option<Page<Row>>): (t: Viewer<Row>)
    ensures answer.None? ==> t == s
    ensures answer.Some? ==>
      && t.pagination == s.pagination.(offset := l.offset, total := answer.value.total)
      && t.currentView == (if l.view == ProjectsView then s.currentView else l.view)
      && t.searchTerm == s.searchTerm
      && (l.view == ProjectsView ==> t == s.(projects := answer.value.data, pagination := t.pagination))
      && (l.view == ConversationsView ==> t == s.(conversations := answer.value.data, selectedProject := l.key, currentView := ConversationsView, pagination := t.pagination))
      && (l.view == MessagesView ==> t == s.(messages := answer.value.data, selectedConversation := l.key, currentView := MessagesView, pagination := t.pagination))
  {
    match answer
    case None => s
    case Some(page) =>
      var p := s.pagination.(offset := l.offset, total := page.total);
      match l.view
      case ProjectsView => s.(projects := page.data, pagination := p)
      case ConversationsView => s.(conversations := page.data, selectedProject := l.key, currentView := ConversationsView, pagination := p)
      case MessagesView => s.(messages := page.data, selectedConversation := l.key, currentView := MessagesView, pagination := p)
  }

  /**
   * Going forward a page and then back returns to the same offset, in the
   * same view and for the same selection, provided the forward load
   * succeeded with the same total.
   */
  lemma NextThenPrev<Row>(s: Viewer<Row>, page: Page<Row>)
    requires NextPage(s).Some? && page.total == s.pagination.total
    ensures var t := ApplyLoad(s, NextPage(s).value, Some(page));
      PrevPage(t) == LoadAt(s, s.pagination.offset)
  {
    var t := ApplyLoad(s, NextPage(s).value, Some(page));
    assert t.currentView == s.currentView;
    assert t.selectedProject == s.selectedProject && t.selectedConversation == s.selectedConversation;
  }

  /** The "previous" button's `disabled`. */
  predicate PrevDisabled(p: Pagination) {
    p.offset == 0
  }

  /** The "next" button's `disabled`. */
  predicate NextDisabled(p: Pagination) {
    p.offset + p.limit >= p.total
  }

  /** The "next" button is disabled exactly when `nextPage` would do nothing. */
  lemma NextDisabledIffNoLoad<Row>(s: Viewer<Row>)
    ensures NextDisabled(s.pagination) <==> NextPage(s).None?
  {
  }

  /** The "previous" button is disabled exactly when `prevPage` would reload the offset it is at. */
  lemma PrevDisabledIffSameOffset<Row>(s: Viewer<Row>)
    requires s.pagination.limit > 0
    ensures PrevDisabled(s.pagination) <==> PrevPage(s).offset == s.pagination.offset
  {
  }

  /**
   * The "showing first - last" line: `offset + 1` to `min(offset + limit,
   * total)`. At an offset below the total it is a nonempty range of at most
   * one page that ends at the total or a full page later.
   */
  function DisplayRange(p: Pagination): (r: (nat, nat))
    ensures r.0 == p.offset + 1
    ensures r.1 <= p.total && r.1 <= p.offset + p.limit
    ensures r.1 == p.total || r.1 == p.offset + p.limit
    ensures p.offset < p.total && p.limit > 0 ==> r.0 <= r.1
  {
    (p.offset + 1, if p.offset + p.limit < p.total then p.offset + p.limit else p.total)
  }

  /** `goBack`: one level up, clearing the list being left (and the selected project when leaving conversations). */
  function GoBack<Row>(s: Viewer<Row>): (t: Viewer<Row>)
    ensures s.currentView == MessagesView ==> t == s.(currentView := ConversationsView, messages := [])
    ensures s.currentView == ConversationsView ==> t == s.(currentView := ProjectsView, conversations := [], selectedProject := "")
    ensures s.currentView == ProjectsView ==> t == s
  {
    match s.currentView
    case MessagesView => s.(currentView := ConversationsView, messages := [])
    case ConversationsView => s.(currentView := ProjectsView, conversations := [], selectedProject := "")
    case ProjectsView => s
  }

  /** From the messages view, going back twice reaches the projects view with nothing selected but the conversation. */
  lemma GoBackTwice<Row>(s: Viewer<Row>)
    requires s.currentView == MessagesView
    ensures var t := GoBack(GoBack(s));
      t.currentView == ProjectsView && t.messages == [] && t.conversations == [] && t.selectedProject == ""
      && t.pagination == s.pagination && t.projects == s.projects
  {
  }

  /** The server's answer to `search`: rows of the current view and their count. */
  datatype Found<Row> = Found(data: seq<Row>, count: nat)

  /**
   * `handleSearch`: a blank term does nothing; a failed search changes
   * nothing; a successful one replaces the current view's list and resets the
   * pagination to offset 0 with the result count as total.
   */
  function HandleSearch<Row>(s: Viewer<Row>, answer: Option<Found<Row>>): (t: Viewer<Row>)
    ensures Text.IsBlank(s.searchTerm) || answer.None? ==> t == s
    ensures !Text.IsBlank(s.searchTerm) && answer.Some? ==>
      && t.pagination == s.pagination.(offset := 0, total := answer.value.count)
      && t.currentView == s.currentView
      && (s.currentView == ProjectsView ==> t.projects == answer.value.data && t.conversations == s.conversations && t.messages == s.messages)
      && (s.currentView == ConversationsView ==> t.conversations == answer.value.data && t.projects == s.projects && t.messages == s.messages)
      && (s.currentView == MessagesView ==> t.messages == answer.value.data && t.projects == s.projects && t.conversations == s.conversations)
  {
    Text.TrimEmptyIffBlank(s.searchTerm);
    if Text.Trim(s.searchTerm) == [] then s
    else match answer
      case None => s
      case Some(found) =>
        var p := s.pagination.(offset := 0, total := found.count);
        match s.currentView
        case ProjectsView => s.(projects := found.data, pagination := p)
        case ConversationsView => s.(conversations := found.data, pagination := p)
        case MessagesView => s.(messages := found.data, pagination := p)
  }

  /** After a successful search the "previous" button is disabled. */
  lemma SearchDisablesPrev<Row>(s: Viewer<Row>, found: Found<Row>)
    requires !Text.IsBlank(s.searchTerm)
    ensures PrevDisabled(HandleSearch(s, Some(found)).pagination)
  {
  }
}
