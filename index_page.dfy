/**
 * The archive's main page (the Index page): which view is shown and which
 * project and conversation are selected, and the total-conversations figure.
 */
module IndexPage {
  import opened Wrappers
  import Text
  import opened Archive

  datatype View = ProjectsView | ConversationsView | MessagesView | SearchView

  datatype PageState = PageState(
    currentView: View, selectedProject: Option<string>, selectedConversation: Option<string>,
    searchQuery: string, selectedTools: seq<string>)

  const InitialPage := PageState(ProjectsView, None, None, "", [])

  /** `handleProjectSelect`: selects the project and shows its conversations. */
  function ProjectSelect(s: PageState, projectId: string): (t: PageState)
    ensures t == s.(selectedProject := Some(projectId), currentView := ConversationsView)
  {
    s.(selectedProject := Some(projectId), currentView := ConversationsView)
  }

  /** `handleConversationSelect`: selects the conversation and shows its messages. */
  function ConversationSelect(s: PageState, conversationId: string): (t: PageState)
    ensures t == s.(selectedConversation := Some(conversationId), currentView := MessagesView)
  {
    s.(selectedConversation := Some(conversationId), currentView := MessagesView)
  }

  /** `handleSearch`: stores the query; shows the search view for a non-blank one, the projects otherwise. */
  function Search(s: PageState, query: string): (t: PageState)
    ensures t.searchQuery == query
    ensures t.currentView == (if Text.IsBlank(query) then ProjectsView else SearchView)
    ensures t.selectedProject == s.selectedProject && t.selectedConversation == s.selectedConversation
    ensures t.selectedTools == s.selectedTools
  {
    Text.TrimEmptyIffBlank(query);
    s.(searchQuery := query, currentView := if Text.Trim(query) != [] then SearchView else ProjectsView)
  }

  /** `handleBackToProjects`: shows the projects and clears both selections. */
  function BackToProjects(s: PageState): (t: PageState)
    ensures t == s.(currentView := ProjectsView, selectedProject := None, selectedConversation := None)
  {
    s.(currentView := ProjectsView, selectedProject := None, selectedConversation := None)
  }

  /** `handleBackToConversations`: shows the conversations and clears only the conversation selection. */
  function BackToConversations(s: PageState): (t: PageState)
    ensures t == s.(currentView := ConversationsView, selectedConversation := None)
  {
    s.(currentView := ConversationsView, selectedConversation := None)
  }

  /** Selecting a conversation and going back to the conversations keeps the selected project and forgets the conversation. */
  lemma SelectThenBack(s: PageState, conversationId: string)
    ensures BackToConversations(ConversationSelect(s, conversationId)) == s.(currentView := ConversationsView, selectedConversation := None)
  {
  }

  /** Going back to the projects from anywhere gives the same page whatever was selected before. */
  lemma BackToProjectsForgets(s: PageState, projectId: string, conversationId: string)
    ensures BackToProjects(ConversationSelect(ProjectSelect(s, projectId), conversationId)) == BackToProjects(s)
  {
  }

  /** The page never shows messages without a selected conversation. */
  predicate Coherent(s: PageState) {
    (s.currentView == MessagesView ==> s.selectedConversation.Some?)
  }

  datatype Event = SelectProject(projectId: string) | SelectConversation(conversationId: string)
                 | SearchFor(query: string) | BackToProjectsEvent | BackToConversationsEvent

  function Step(s: PageState, e: Event): PageState {
    match e
    case SelectProject(id) => ProjectSelect(s, id)
    case SelectConversation(id) => ConversationSelect(s, id)
    case SearchFor(q) => Search(s, q)
    case BackToProjectsEvent => BackToProjects(s)
    case BackToConversationsEvent => BackToConversations(s)
  }

  function Run(s: PageState, events: seq<Event>): PageState
    decreases |events|
  {
    if events == [] then s else Run(Step(s, events[0]), events[1..])
  }

  /** Every sequence of handler calls keeps the page coherent: only a conversation selection leads to the messages view. */
  lemma {:induction false} RunCoherent(s: PageState, events: seq<Event>)
    requires Coherent(s)
    ensures Coherent(Run(s, events))
    decreases |events|
  {
    if events != [] {
      assert Coherent(Step(s, events[0]));
      RunCoherent(Step(s, events[0]), events[1..]);
    }
  }

  /** The conversations of the projects `ps`. */
  function ConversationTotal(ps: seq<Project>): nat {
    if ps == [] then 0 else ConversationTotal(ps[..|ps| - 1]) + |ps[|ps| - 1].conversations|
  }

  /**
   * The total-conversations figure: the `reduce` over the projects adding
   * each one's conversation count, as a loop.
   */
  method TotalConversations(projects: seq<Project>) returns (sum: nat)
    ensures sum == ConversationTotal(projects)
  {
    sum := 0;
    var i := 0;
    while i < |projects|
      invariant 0 <= i <= |projects|
      invariant sum == ConversationTotal(projects[..i])
    {
      assert projects[..i + 1][..i] == projects[..i];
      sum := sum + |projects[i].conversations|;
      i := i + 1;
    }
    assert projects[..i] == projects;
  }

  /** The figure is additive over the project list: the total of two lists is the sum of their totals. */
  lemma {:induction false} ConversationTotalConcat(a: seq<Project>, b: seq<Project>)
    ensures ConversationTotal(a + b) == ConversationTotal(a) + ConversationTotal(b)
    decreases |b|
  {
    if b != [] {
      var init := b[..|b| - 1];
      assert (a + b)[..|a + b| - 1] == a + init;
      ConversationTotalConcat(a, init);
    } else {
      assert a + b == a;
    }
  }
}
