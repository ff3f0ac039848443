/**
 * The archive-wide search (the SearchResults component): one walk over
 * projects, their conversations and their messages, collecting a result for
 * every item whose text contains the query, compared in lower case.
 */
module SearchResults {
  import opened Wrappers
  import Text
  import Seqs
  import opened Archive

  datatype Kind = ProjectHit | ConversationHit | MessageHit

  datatype SearchResult = SearchResult(
    kind: Kind, projectId: string, conversationId: Option<string>, messageId: Option<string>,
    title: string, content: string, context: string, tool: Option<string>, timestamp: Option<string>)

  /** Longest message text shown in full in a result. */
  const PreviewLength: nat := 150

  predicate ProjectMatches(p: Project, term: string) {
    Text.Contains(Text.ToLower(p.name), term) || Text.Contains(Text.ToLower(p.description), term)
  }

  predicate ConversationMatches(c: Conversation, term: string) {
    Text.Contains(Text.ToLower(c.title), term)
  }

  predicate MessageMatches(m: Message, term: string) {
    Text.Contains(Text.ToLower(m.content), term)
  }

  function ProjectResult(p: Project): SearchResult {
    SearchResult(ProjectHit, p.id, None, None, p.name, p.description,
      Text.NatToString(|p.conversations|) + " 个对话", None, Some(p.lastUpdated))
  }

  function ConversationResult(p: Project, c: Conversation): SearchResult {
    SearchResult(ConversationHit, p.id, Some(c.id), None, c.title, "来自项目: " + p.name,
      Text.NatToString(|c.messages|) + " 条消息", Some(c.tool), Some(c.createdAt))
  }

  /** A message result; its content is the message cut to 150 characters plus "..." when longer. */
  function MessageResult(p: Project, c: Conversation, m: Message): SearchResult {
    SearchResult(MessageHit, p.id, Some(c.id), Some(m.id), c.title, Text.TruncateText(m.content, PreviewLength),
      p.name + " > " + c.title, Some(c.tool), Some(m.timestamp))
  }

  /** The preview of a message result: the whole message up to 150 characters, otherwise its first 150 characters and "...". */
  lemma MessagePreview(p: Project, c: Conversation, m: Message)
    ensures |m.content| <= PreviewLength ==> MessageResult(p, c, m).content == m.content
    ensures |m.content| > PreviewLength ==> MessageResult(p, c, m).content == m.content[..PreviewLength] + "..."
  {
    var r := MessageResult(p, c, m).content;
    if |m.content| > PreviewLength {
      assert r == r[..PreviewLength] + r[PreviewLength..];
    }
  }

  // The results of the walk, as functions of a prefix of each list.

  /** The results of the messages `ms` of conversation `c`. */
  function MessageHits(p: Project, c: Conversation, ms: seq<Message>, term: string): (r: seq<SearchResult>)
    ensures |r| <= |ms|
  {
    if ms == [] then []
    else
      var m := ms[|ms| - 1];
      MessageHits(p, c, ms[..|ms| - 1], term) + (if MessageMatches(m, term) then [MessageResult(p, c, m)] else [])
  }

  lemma MessageHitsStep(p: Project, c: Conversation, ms: seq<Message>, k: nat, term: string)
    requires k < |ms|
    ensures MessageHits(p, c, ms[..k + 1], term)
         == MessageHits(p, c, ms[..k], term) + (if MessageMatches(ms[k], term) then [MessageResult(p, c, ms[k])] else [])
  {
    assert ms[..k + 1][..k] == ms[..k];
  }

  /** The number of messages of the conversations `cs`. */
  function MessageCount(cs: seq<Conversation>): nat {
    if cs == [] then 0 else MessageCount(cs[..|cs| - 1]) + |cs[|cs| - 1].messages|
  }

  /** The results of the conversations `cs` of project `p`, each conversation's result before its messages' results. */
  function ConversationHits(p: Project, cs: seq<Conversation>, term: string): (r: seq<SearchResult>)
    ensures |r| <= |cs| + MessageCount(cs)
  {
    if cs == [] then []
    else ConversationHits(p, cs[..|cs| - 1], term) + ConversationPart(p, cs[|cs| - 1], term)
  }

  /** The results of one conversation: its own result first, then those of its messages. */
  function ConversationPart(p: Project, c: Conversation, term: string): (r: seq<SearchResult>)
    ensures |r| <= 1 + |c.messages|
  {
    (if ConversationMatches(c, term) then [ConversationResult(p, c)] else []) + MessageHits(p, c, c.messages, term)
  }

  lemma ConversationHitsStep(p: Project, cs: seq<Conversation>, j: nat, term: string)
    requires j < |cs|
    ensures ConversationHits(p, cs[..j + 1], term) == ConversationHits(p, cs[..j], term) + ConversationPart(p, cs[j], term)
  {
    assert cs[..j + 1][..j] == cs[..j];
  }

  /** The results of one project: its own result first, then those of its conversations. */
  function ProjectHits(p: Project, term: string): (r: seq<SearchResult>)
    ensures |r| <= 1 + |p.conversations| + MessageCount(p.conversations)
  {
    (if ProjectMatches(p, term) then [ProjectResult(p)] else []) + ConversationHits(p, p.conversations, term)
  }

  /** The number of projects, conversations and messages of `ps`. */
  function ItemCount(ps: seq<Project>): nat {
    if ps == [] then 0
    else ItemCount(ps[..|ps| - 1]) + 1 + |ps[|ps| - 1].conversations| + MessageCount(ps[|ps| - 1].conversations)
  }

  /** The results for `projects` and the lower-cased query `term`, in traversal order. */
  function Search(ps: seq<Project>, term: string): (r: seq<SearchResult>)
    ensures |r| <= ItemCount(ps)
  {
    if ps == [] then [] else Search(ps[..|ps| - 1], term) + ProjectHits(ps[|ps| - 1], term)
  }

  /** `searchResults`: the `forEach` over the projects, pushing into `results`. */
  method CollectResults(query: string, projects: seq<Project>) returns (results: seq<SearchResult>)
    ensures results == Search(projects, Text.ToLower(query))
    ensures |results| <= ItemCount(projects)
  {
    var term := Text.ToLower(query);
    results := [];
    var i := 0;
    while i < |projects|
      invariant 0 <= i <= |projects|
      invariant results == Search(projects[..i], term)
    {
      assert projects[..i + 1][..i] == projects[..i];
      results := CollectProject(projects[i], term, results);
      i := i + 1;
    }
    assert projects[..i] == projects;
  }

  /** The callback for one project: its own result, then the `forEach` over its conversations. */
  method CollectProject(project: Project, term: string, acc: seq<SearchResult>) returns (results: seq<SearchResult>)
    ensures results == acc + ProjectHits(project, term)
  {
    results := acc;
    if ProjectMatches(project, term) {
      results := results + [ProjectResult(project)];
    }
    results := CollectConversations(project, term, results);
  }

  /** The `forEach` over a project's conversations. */
  method CollectConversations(project: Project, term: string, acc: seq<SearchResult>) returns (results: seq<SearchResult>)
    ensures results == acc + ConversationHits(project, project.conversations, term)
  {
    var cs := project.conversations;
    results := acc;
    assert cs[..0] == [];
    var j := 0;
    while j < |cs|
      invariant 0 <= j <= |cs|
      invariant results == acc + ConversationHits(project, cs[..j], term)
    {
      ghost var before := ConversationHits(project, cs[..j], term);
      ConversationHitsStep(project, cs, j, term);
      results := CollectConversation(project, cs[j], term, results);
      assert results == acc + (before + ConversationPart(project, cs[j], term));
      j := j + 1;
    }
    assert cs[..j] == cs;
  }

  /** The callback for one conversation: its own result, then the `forEach` over its messages. */
  method CollectConversation(project: Project, conversation: Conversation, term: string, acc: seq<SearchResult>) returns (results: seq<SearchResult>)
    ensures results == acc + ConversationPart(project, conversation, term)
  {
    results := acc;
    if ConversationMatches(conversation, term) {
      results := results + [ConversationResult(project, conversation)];
    }
    results := CollectMessages(project, conversation, term, results);
  }

  /** The `forEach` over a conversation's messages. */
  method CollectMessages(project: Project, conversation: Conversation, term: string, acc: seq<SearchResult>) returns (results: seq<SearchResult>)
    ensures results == acc + MessageHits(project, conversation, conversation.messages, term)
  {
    results := acc;
    assert conversation.messages[..0] == [];
    var k := 0;
    while k < |conversation.messages|
      invariant 0 <= k <= |conversation.messages|
      invariant results == acc + MessageHits(project, conversation, conversation.messages[..k], term)
    {
      var message := conversation.messages[k];
      MessageHitsStep(project, conversation, conversation.messages, k, term);
      if MessageMatches(message, term) {
        results := results + [MessageResult(project, conversation, message)];
      }
      k := k + 1;
    }
    assert conversation.messages[..k] == conversation.messages;
  }

  // Every result carries the project (and conversation) it was found under.

  /** Every result of `rs` is a message result of conversation `c` of project `p`. */
  predicate MessageResultsOf(rs: seq<SearchResult>, p: Project, c: Conversation) {
    forall i :: 0 <= i < |rs| ==> rs[i].kind == MessageHit && rs[i].projectId == p.id && rs[i].conversationId == Some(c.id)
  }

  /** Every result of `rs` is a conversation or message result naming project `p` and some conversation. */
  predicate ConversationResultsOf(rs: seq<SearchResult>, p: Project) {
    forall i :: 0 <= i < |rs| ==> rs[i].kind != ProjectHit && rs[i].projectId == p.id && rs[i].conversationId.Some?
  }

  /** Each message result names the message's conversation and project. */
  lemma {:induction false} MessageHitsCarryOwners(p: Project, c: Conversation, ms: seq<Message>, term: string)
    ensures MessageResultsOf(MessageHits(p, c, ms, term), p, c)
  {
    if ms != [] {
      MessageHitsCarryOwners(p, c, ms[..|ms| - 1], term);
    }
  }

  /** Each result under a project's conversations is a conversation or message result naming that project and a conversation. */
  lemma {:induction false} ConversationHitsCarryOwners(p: Project, cs: seq<Conversation>, term: string)
    ensures ConversationResultsOf(ConversationHits(p, cs, term), p)
  {
    if cs != [] {
      var c := cs[|cs| - 1];
      ConversationHitsCarryOwners(p, cs[..|cs| - 1], term);
      MessageHitsCarryOwners(p, c, c.messages, term);
      assert ConversationResultsOf(ConversationPart(p, c, term), p);
    }
  }

  // Filtering the results by kind.

  predicate IsProjectHit(r: SearchResult) {
    r.kind == ProjectHit
  }

  /** The projects of `ps` that match, in order. */
  function MatchingProjects(ps: seq<Project>, term: string): seq<Project> {
    if ps == [] then []
    else MatchingProjects(ps[..|ps| - 1], term) + (if ProjectMatches(ps[|ps| - 1], term) then [ps[|ps| - 1]] else [])
  }

  /**
   * Every matching project yields exactly one project result and no other
   * project does: the project results are those of the matching projects,
   * in order.
   */
  lemma {:induction false} ProjectHitsExact(ps: seq<Project>, term: string)
    ensures Seqs.Filter(Search(ps, term), IsProjectHit) == Seqs.Map(MatchingProjects(ps, term), ProjectResult)
  {
    if ps != [] {
      var init := ps[..|ps| - 1];
      var p := ps[|ps| - 1];
      var mine := if ProjectMatches(p, term) then [p] else [];
      ProjectHitsExact(init, term);
      Seqs.FilterConcat(Search(init, term), ProjectHits(p, term), IsProjectHit);
      OwnProjectHit(p, term);
      Seqs.MapConcat(MatchingProjects(init, term), mine, ProjectResult);
    }
  }

  /** Among one project's results the only project result is its own, present when it matches. */
  lemma OwnProjectHit(p: Project, term: string)
    ensures Seqs.Filter(ProjectHits(p, term), IsProjectHit) == Seqs.Map(if ProjectMatches(p, term) then [p] else [], ProjectResult)
  {
    var own := if ProjectMatches(p, term) then [ProjectResult(p)] else [];
    var rest := ConversationHits(p, p.conversations, term);
    Seqs.FilterConcat(own, rest, IsProjectHit);
    ConversationHitsCarryOwners(p, p.conversations, term);
    Seqs.FilterNone(rest, IsProjectHit);
    assert Seqs.Filter(own, IsProjectHit) == own by {
      if own != [] {
        assert own[1..] == [];
      }
    }
  }

  predicate IsConversationHit(r: SearchResult) {
    r.kind == ConversationHit
  }

  predicate IsMessageHit(r: SearchResult) {
    r.kind == MessageHit
  }

  /** The conversations of `cs` whose title matches, in order. */
  function MatchingConversations(cs: seq<Conversation>, term: string): seq<Conversation> {
    if cs == [] then []
    else MatchingConversations(cs[..|cs| - 1], term) + (if ConversationMatches(cs[|cs| - 1], term) then [cs[|cs| - 1]] else [])
  }

  /** The messages of `ms` whose content matches, in order. */
  function MatchingMessages(ms: seq<Message>, term: string): seq<Message> {
    if ms == [] then []
    else MatchingMessages(ms[..|ms| - 1], term) + (if MessageMatches(ms[|ms| - 1], term) then [ms[|ms| - 1]] else [])
  }

  /** The result built for a conversation of project `p`. */
  function ConversationResultOf(p: Project): Conversation -> SearchResult {
    (c: Conversation) => ConversationResult(p, c)
  }

  /** The result built for a message of conversation `c` of project `p`. */
  function MessageResultOf(p: Project, c: Conversation): Message -> SearchResult {
    (m: Message) => MessageResult(p, c, m)
  }

  /** One result per matching message of each conversation of `cs`, conversation by conversation. */
  function MatchingMessageResults(p: Project, cs: seq<Conversation>, term: string): seq<SearchResult> {
    if cs == [] then []
    else
      var c := cs[|cs| - 1];
      MatchingMessageResults(p, cs[..|cs| - 1], term) + Seqs.Map(MatchingMessages(c.messages, term), MessageResultOf(p, c))
  }

  /** One result per matching conversation of each project of `ps`, project by project. */
  function ExpectedConversationHits(ps: seq<Project>, term: string): seq<SearchResult> {
    if ps == [] then []
    else
      var p := ps[|ps| - 1];
      ExpectedConversationHits(ps[..|ps| - 1], term) + Seqs.Map(MatchingConversations(p.conversations, term), ConversationResultOf(p))
  }

  /** One result per matching message of each project of `ps`, project by project. */
  function ExpectedMessageHits(ps: seq<Project>, term: string): seq<SearchResult> {
    if ps == [] then []
    else
      var p := ps[|ps| - 1];
      ExpectedMessageHits(ps[..|ps| - 1], term) + MatchingMessageResults(p, p.conversations, term)
  }

  /** The message results of a conversation are exactly those of its matching messages, one each, in order. */
  lemma {:induction false} MessageHitsExact(p: Project, c: Conversation, ms: seq<Message>, term: string)
    ensures MessageHits(p, c, ms, term) == Seqs.Map(MatchingMessages(ms, term), MessageResultOf(p, c))
  {
    if ms != [] {
      var init, m := ms[..|ms| - 1], ms[|ms| - 1];
      var mine := if MessageMatches(m, term) then [m] else [];
      MessageHitsExact(p, c, init, term);
      Seqs.MapConcat(MatchingMessages(init, term), mine, MessageResultOf(p, c));
    }
  }

  /** Within one conversation's part, its own result is the only conversation result and its message results follow. */
  lemma ConversationPartExact(p: Project, c: Conversation, term: string)
    ensures Seqs.Filter(ConversationPart(p, c, term), IsConversationHit)
      == (if ConversationMatches(c, term) then [ConversationResult(p, c)] else [])
    ensures Seqs.Filter(ConversationPart(p, c, term), IsMessageHit)
      == Seqs.Map(MatchingMessages(c.messages, term), MessageResultOf(p, c))
  {
    var own := if ConversationMatches(c, term) then [ConversationResult(p, c)] else [];
    var rest := MessageHits(p, c, c.messages, term);
    Seqs.FilterConcat(own, rest, IsConversationHit);
    Seqs.FilterConcat(own, rest, IsMessageHit);
    MessageHitsCarryOwners(p, c, c.messages, term);
    Seqs.FilterNone(rest, IsConversationHit);
    Seqs.FilterAll(rest, IsMessageHit);
    MessageHitsExact(p, c, c.messages, term);
    if own != [] {
      assert own[1..] == [];
    }
  }

  /** Under one project, the conversation results and the message results are exactly those of the matching items, in order. */
  lemma {:induction false} ConversationHitsExact(p: Project, cs: seq<Conversation>, term: string)
    ensures Seqs.Filter(ConversationHits(p, cs, term), IsConversationHit)
      == Seqs.Map(MatchingConversations(cs, term), ConversationResultOf(p))
    ensures Seqs.Filter(ConversationHits(p, cs, term), IsMessageHit) == MatchingMessageResults(p, cs, term)
  {
    if cs != [] {
      var init, c := cs[..|cs| - 1], cs[|cs| - 1];
      var mine := if ConversationMatches(c, term) then [c] else [];
      ConversationHitsExact(p, init, term);
      Seqs.FilterConcat(ConversationHits(p, init, term), ConversationPart(p, c, term), IsConversationHit);
      Seqs.FilterConcat(ConversationHits(p, init, term), ConversationPart(p, c, term), IsMessageHit);
      ConversationPartExact(p, c, term);
      Seqs.MapConcat(MatchingConversations(init, term), mine, ConversationResultOf(p));
    }
  }

  /** The project's own result is neither a conversation nor a message result: filtering by `k` sees only its conversations' part. */
  lemma ProjectHitsKind(p: Project, term: string, k: SearchResult -> bool)
    requires forall r :: k(r) ==> !IsProjectHit(r)
    ensures Seqs.Filter(ProjectHits(p, term), k) == Seqs.Filter(ConversationHits(p, p.conversations, term), k)
  {
    var own := if ProjectMatches(p, term) then [ProjectResult(p)] else [];
    Seqs.FilterConcat(own, ConversationHits(p, p.conversations, term), k);
    Seqs.FilterNone(own, k);
  }

  /**
   * Every matching conversation yields exactly one conversation result and
   * no other conversation yields one: the conversation results are those of
   * the matching conversations, project by project, in order.
   */
  lemma {:induction false} ConversationResultsExact(ps: seq<Project>, term: string)
    ensures Seqs.Filter(Search(ps, term), IsConversationHit) == ExpectedConversationHits(ps, term)
  {
    if ps != [] {
      var init, p := ps[..|ps| - 1], ps[|ps| - 1];
      ConversationResultsExact(init, term);
      Seqs.FilterConcat(Search(init, term), ProjectHits(p, term), IsConversationHit);
      ProjectHitsKind(p, term, IsConversationHit);
      ConversationHitsExact(p, p.conversations, term);
    }
  }

  /**
   * Every matching message yields exactly one message result and no other
   * message yields one: the message results are those of the matching
   * messages, conversation by conversation, in order.
   */
  lemma {:induction false} MessageResultsExact(ps: seq<Project>, term: string)
    ensures Seqs.Filter(Search(ps, term), IsMessageHit) == ExpectedMessageHits(ps, term)
  {
    if ps != [] {
      var init, p := ps[..|ps| - 1], ps[|ps| - 1];
      MessageResultsExact(init, term);
      Seqs.FilterConcat(Search(init, term), ProjectHits(p, term), IsMessageHit);
      ProjectHitsKind(p, term, IsMessageHit);
      ConversationHitsExact(p, p.conversations, term);
    }
  }

  /** An empty query matches every item: a message result for every message. */
  lemma {:induction false} EmptyQueryMessages(p: Project, c: Conversation, ms: seq<Message>)
    ensures |MessageHits(p, c, ms, "")| == |ms|
  {
    if ms != [] {
      EmptyQueryMessages(p, c, ms[..|ms| - 1]);
      Text.ContainsEmpty(Text.ToLower(ms[|ms| - 1].content));
    }
  }

  lemma {:induction false} EmptyQueryConversations(p: Project, cs: seq<Conversation>)
    ensures |ConversationHits(p, cs, "")| == |cs| + MessageCount(cs)
  {
    if cs != [] {
      var c := cs[|cs| - 1];
      EmptyQueryConversations(p, cs[..|cs| - 1]);
      Text.ContainsEmpty(Text.ToLower(c.title));
      EmptyQueryMessages(p, c, c.messages);
    }
  }

  /** An empty query matches every project, conversation and message: there is one result per item. */
  lemma {:induction false} EmptyQueryMatchesAll(ps: seq<Project>)
    ensures |Search(ps, "")| == ItemCount(ps)
  {
    if ps != [] {
      var p := ps[|ps| - 1];
      EmptyQueryMatchesAll(ps[..|ps| - 1]);
      Text.ContainsEmpty(Text.ToLower(p.name));
      EmptyQueryConversations(p, p.conversations);
    }
  }

  // Where a result for a given item lands.

  lemma {:induction false} MessageHitsHas(p: Project, c: Conversation, ms: seq<Message>, k: nat, term: string)
    requires k < |ms| && MessageMatches(ms[k], term)
    ensures MessageResult(p, c, ms[k]) in MessageHits(p, c, ms, term)
  {
    if k < |ms| - 1 {
      assert ms[..|ms| - 1][k] == ms[k];
      MessageHitsHas(p, c, ms[..|ms| - 1], k, term);
    }
  }

  lemma {:induction false} ConversationHitsHas(p: Project, cs: seq<Conversation>, j: nat, x: SearchResult, term: string)
    requires j < |cs| && x in ConversationPart(p, cs[j], term)
    ensures x in ConversationHits(p, cs, term)
  {
    if j < |cs| - 1 {
      assert cs[..|cs| - 1][j] == cs[j];
      ConversationHitsHas(p, cs[..|cs| - 1], j, x, term);
    }
  }

  lemma {:induction false} SearchHas(ps: seq<Project>, i: nat, x: SearchResult, term: string)
    requires i < |ps| && x in ProjectHits(ps[i], term)
    ensures x in Search(ps, term)
  {
    if i < |ps| - 1 {
      assert ps[..|ps| - 1][i] == ps[i];
      SearchHas(ps[..|ps| - 1], i, x, term);
    }
  }

  // Matching ignores case: an item whose text contains the query, typed in
  // any case, is found.

  /** A project whose name or description contains the query in some case is among the results. */
  lemma ProjectFoundInAnyCase(ps: seq<Project>, i: nat, query: string, typed: string)
    requires i < |ps| && Text.ToLower(typed) == Text.ToLower(query)
    ensures Text.Contains(ps[i].name, typed) || Text.Contains(ps[i].description, typed)
      ==> ProjectResult(ps[i]) in Search(ps, Text.ToLower(query))
  {
    var p, term := ps[i], Text.ToLower(query);
    Text.ContainsLower(p.name, typed);
    Text.ContainsLower(p.description, typed);
    if ProjectMatches(p, term) {
      SearchHas(ps, i, ProjectResult(p), term);
    }
  }

  /** A conversation whose title contains the query in some case is among the results. */
  lemma ConversationFoundInAnyCase(ps: seq<Project>, i: nat, j: nat, query: string, typed: string)
    requires i < |ps| && j < |ps[i].conversations| && Text.ToLower(typed) == Text.ToLower(query)
    ensures Text.Contains(ps[i].conversations[j].title, typed)
      ==> ConversationResult(ps[i], ps[i].conversations[j]) in Search(ps, Text.ToLower(query))
  {
    var p, term := ps[i], Text.ToLower(query);
    var c := p.conversations[j];
    var x := ConversationResult(p, c);
    Text.ContainsLower(c.title, typed);
    if ConversationMatches(c, term) {
      assert x in ConversationPart(p, c, term);
      ConversationHitsHas(p, p.conversations, j, x, term);
      SearchHas(ps, i, x, term);
    }
  }

  /** A message whose content contains the query in some case is among the results, under its conversation and project. */
  lemma MessageFoundInAnyCase(ps: seq<Project>, i: nat, j: nat, k: nat, query: string, typed: string)
    requires i < |ps| && j < |ps[i].conversations| && k < |ps[i].conversations[j].messages|
    requires Text.ToLower(typed) == Text.ToLower(query)
    ensures Text.Contains(ps[i].conversations[j].messages[k].content, typed)
      ==> MessageResult(ps[i], ps[i].conversations[j], ps[i].conversations[j].messages[k]) in Search(ps, Text.ToLower(query))
  {
    var p, term := ps[i], Text.ToLower(query);
    var c := p.conversations[j];
    var m := c.messages[k];
    var x := MessageResult(p, c, m);
    Text.ContainsLower(m.content, typed);
    if MessageMatches(m, term) {
      MessageHitsHas(p, c, c.messages, k, term);
      assert x in ConversationPart(p, c, term);
      ConversationHitsHas(p, p.conversations, j, x, term);
      SearchHas(ps, i, x, term);
    }
  }
}
