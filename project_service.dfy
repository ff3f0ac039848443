/**
 * The archive's data service (projectService): the post-fetch mappings of
 * project and conversation rows, the assembly of projects with their
 * conversations, the project search and the lookup by id. Each database
 * query is a parameter giving its answer: `Err` when the query failed,
 * `Ok(None)` when it returned no data.
 */
module ProjectService {
  import opened Wrappers
  import Text
  import Seqs

  datatype ProjectRow = ProjectRow(
    id: string, workspaceId: string, platform: string, name: string, path: string,
    createdAt: string, updatedAt: string)

  datatype ConversationRow = ConversationRow(
    id: string, workspaceId: string, projectName: string, name: string,
    createdAt: Option<string>, lastInteractedAt: Option<string>, messageCount: int,
    createdTimestamp: string, updatedTimestamp: string)

  datatype MessageRow = MessageRow(id: string, role: string, content: string, timestamp: string)

  /** A project row with the fields the components expect added. */
  datatype Project = Project(row: ProjectRow, description: string, lastUpdated: string)

  /** A conversation row with the fields the components expect added. */
  datatype Conversation = Conversation(row: ConversationRow, title: string, tool: string, createdAt: string)

  datatype ProjectWithConversations = ProjectWithConversations(project: Project, conversations: seq<Conversation>)

  /** A query's answer. */
  type Answer<T> = Result<Option<T>>

  const NoDescription := "No description"
  const UntitledConversation := "Untitled Conversation"

  /** The project mapping: the description is the path, or 'No description' when the path is empty. */
  function MapProject(row: ProjectRow): (p: Project)
    ensures p.row == row && p.lastUpdated == row.updatedAt
    ensures row.path != "" ==> p.description == row.path
    ensures row.path == "" ==> p.description == NoDescription
    ensures p.description != ""
  {
    Project(row, if row.path != "" then row.path else NoDescription, row.updatedAt)
  }

  /**
   * The conversation mapping: the title is the name, or 'Untitled
   * Conversation' when it is empty; the tool is always 'cursor'; the creation
   * time is `created_at` unless that is null or empty, then `created_timestamp`.
   */
  function MapConversation(row: ConversationRow): (c: Conversation)
    ensures c.row == row && c.tool == "cursor" && c.title != ""
    ensures c.title == (if row.name != "" then row.name else UntitledConversation)
    ensures row.createdAt.Some? && row.createdAt.value != "" ==> c.createdAt == row.createdAt.value
    ensures row.createdAt.None? || row.createdAt.value == "" ==> c.createdAt == row.createdTimestamp
  {
    var createdAt := if row.createdAt.Some? && row.createdAt.value != "" then row.createdAt.value else row.createdTimestamp;
    Conversation(row, if row.name != "" then row.name else UntitledConversation, "cursor", createdAt)
  }

  /** `data || []`, then the mapping: an error propagates, no data is an empty list. */
  function MapRows<R, T>(answer: Answer<seq<R>>, f: R -> T): (r: Result<seq<T>>)
    ensures answer.Err? ==> r == Err(answer.error)
    ensures answer == Ok(None) ==> r == Ok([])
    ensures answer.Ok? && answer.value.Some? ==> r == Ok(Seqs.Map(answer.value.value, f))
  {
    match answer
    case Err(e) => Err(e)
    case Ok(None) => Ok([])
    case Ok(Some(rows)) => Ok(Seqs.Map(rows, f))
  }

  /** `getProjects`. */
  function GetProjects(answer: Answer<seq<ProjectRow>>): (r: Result<seq<Project>>)
    ensures answer.Err? <==> r.Err?
    ensures r.Ok? ==> forall p :: p in r.value ==> p.description != ""
  {
    MapRows(answer, MapProject)
  }

  /** `getProjectConversations`. */
  function GetProjectConversations(answer: Answer<seq<ConversationRow>>): (r: Result<seq<Conversation>>)
    ensures answer.Err? <==> r.Err?
    ensures r.Ok? ==> forall c :: c in r.value ==> c.tool == "cursor" && c.title != ""
  {
    MapRows(answer, MapConversation)
  }

  /** `getConversationMessages`: the rows unchanged, `[]` for no data. */
  function GetConversationMessages(answer: Answer<seq<MessageRow>>): (r: Result<seq<MessageRow>>)
    ensures answer.Err? ==> r == Err(answer.error)
    ensures answer.Ok? ==> r == Ok(answer.value.GetOr([]))
  {
    match answer
    case Err(e) => Err(e)
    case Ok(data) => Ok(data.GetOr([]))
  }

  /** The conversations query, answered for a (workspace id, project name) pair. */
  type ConversationsQuery = (string, string) -> Answer<seq<ConversationRow>>

  function ConversationsOf(p: Project, query: ConversationsQuery): Result<seq<Conversation>> {
    GetProjectConversations(query(p.row.workspaceId, p.row.name))
  }

  /** The conversations query of project `k` fails, and those of all projects before it succeed. */
  predicate FirstFailure(ps: seq<Project>, query: ConversationsQuery, k: nat)
    requires k < |ps|
  {
    ConversationsOf(ps[k], query).Err? && forall j :: 0 <= j < k ==> ConversationsOf(ps[j], query).Ok?
  }

  /**
   * `getProjectsWithConversations`: one entry per project, in order, each with
   * its own conversations; the first failing query's error propagates.
   */
  method GetProjectsWithConversations(projectsAnswer: Answer<seq<ProjectRow>>, query: ConversationsQuery)
    returns (r: Result<seq<ProjectWithConversations>>)
    ensures projectsAnswer.Err? ==> r == Err(projectsAnswer.error)
    ensures projectsAnswer.Ok? ==> var ps := GetProjects(projectsAnswer).value;
      && (r.Ok? <==> forall k :: 0 <= k < |ps| ==> ConversationsOf(ps[k], query).Ok?)
      && (r.Ok? ==> |r.value| == |ps| && forall k :: 0 <= k < |ps| ==>
            r.value[k] == ProjectWithConversations(ps[k], ConversationsOf(ps[k], query).value))
      && (r.Err? ==> exists k :: 0 <= k < |ps| && FirstFailure(ps, query, k) && ConversationsOf(ps[k], query) == Err(r.error))
  {
    var fetched := GetProjects(projectsAnswer);
    if fetched.Err? {
      return Err(fetched.error);
    }
    var projects := fetched.value;
    var assembled: seq<ProjectWithConversations> := [];
    var i := 0;
    while i < |projects|
      invariant 0 <= i <= |projects| && |assembled| == i
      invariant forall k :: 0 <= k < i ==> ConversationsOf(projects[k], query).Ok?
      invariant forall k :: 0 <= k < i ==> assembled[k] == ProjectWithConversations(projects[k], ConversationsOf(projects[k], query).value)
    {
      var conversations := ConversationsOf(projects[i], query);
      if conversations.Err? {
        return Err(conversations.error);
      }
      assembled := assembled + [ProjectWithConversations(projects[i], conversations.value)];
      i := i + 1;
    }
    return Ok(assembled);
  }

  /** The search test: the project's name, or the name of one of its conversations, contains the query, ignoring case. */
  predicate SearchMatches(p: ProjectWithConversations, query: string) {
    var q := Text.ToLower(query);
    Text.Contains(Text.ToLower(p.project.row.name), q)
      || exists c :: c in p.conversations && Text.Contains(Text.ToLower(c.row.name), q)
  }

  /** `searchProjects`: the matching projects, in their original order. */
  function SearchProjects(all: Result<seq<ProjectWithConversations>>, query: string): (r: Result<seq<ProjectWithConversations>>)
    ensures all.Err? ==> r == all
    ensures all.Ok? ==> r.Ok? && forall p :: p in r.value <==> p in all.value && SearchMatches(p, query)
    ensures all.Ok? ==> |r.value| <= |all.value|
  {
    match all
    case Err(e) => Err(e)
    case Ok(ps) =>
      var matches := (p: ProjectWithConversations) => SearchMatches(p, query);
      forall p | p in ps && SearchMatches(p, query) ensures p in Seqs.Filter(ps, matches) {
        Seqs.FilterKeeps(ps, matches, p);
      }
      Ok(Seqs.Filter(ps, matches))
  }

  /** The search keeps the original order: searching a concatenation searches each part. */
  lemma SearchKeepsOrder(a: seq<ProjectWithConversations>, b: seq<ProjectWithConversations>, query: string)
    ensures SearchProjects(Ok(a + b), query).value == SearchProjects(Ok(a), query).value + SearchProjects(Ok(b), query).value
  {
    Seqs.FilterConcat(a, b, (p: ProjectWithConversations) => SearchMatches(p, query));
  }

  /** An empty query keeps every project. */
  lemma EmptySearchKeepsAll(ps: seq<ProjectWithConversations>)
    ensures SearchProjects(Ok(ps), "") == Ok(ps)
  {
    forall p | p in ps ensures SearchMatches(p, "") {
      Text.ContainsEmpty(Text.ToLower(p.project.row.name));
    }
    Seqs.FilterAll(ps, (p: ProjectWithConversations) => SearchMatches(p, ""));
  }

  /**
   * `getProjectById`: a failed or empty project query gives null (`None`);
   * otherwise the mapped project with its conversations, where a failing
   * conversations query still propagates its error.
   */
  function GetProjectById(answer: Answer<ProjectRow>, query: ConversationsQuery): (r: Result<Option<ProjectWithConversations>>)
    ensures answer.Err? || answer == Ok(None) ==> r == Ok(None)
    ensures answer.Ok? && answer.value.Some? ==>
      var p := MapProject(answer.value.value);
      && (ConversationsOf(p, query).Err? ==> r == Err(ConversationsOf(p, query).error))
      && (ConversationsOf(p, query).Ok? ==> r == Ok(Some(ProjectWithConversations(p, ConversationsOf(p, query).value))))
  {
    match answer
    case Err(_) => Ok(None)
    case Ok(None) => Ok(None)
    case Ok(Some(row)) =>
      var p := MapProject(row);
      match ConversationsOf(p, query)
      case Err(e) => Err(e)
      case Ok(cs) => Ok(Some(ProjectWithConversations(p, cs)))
  }

  /** The lookup by id maps its project exactly as the list does. */
  lemma LookupAgreesWithList(row: ProjectRow, query: ConversationsQuery)
    requires ConversationsOf(MapProject(row), query).Ok?
    ensures GetProjectById(Ok(Some(row)), query).value.value.project == GetProjects(Ok(Some([row]))).value[0]
  {
  }
}
