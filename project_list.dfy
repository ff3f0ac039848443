/**
 * The project list (the ProjectList component): the per-project tool
 * statistics, keyed by the project's platform.
 */
module ProjectList {
  import ProjectService

  const Unknown := "unknown"

  /** `project.platform || 'unknown'`: the key a project is counted under. */
  function ToolKey(platform: string): (k: string)
    ensures k != ""
    ensures platform != "" ==> k == platform
    ensures platform == "" ==> k == Unknown
  {
    if platform != "" then platform else Unknown
  }

  /** An empty platform and the literal 'unknown' are counted under the same key. */
  lemma EmptyIsUnknown()
    ensures ToolKey("") == ToolKey(Unknown)
  {
  }

  /**
   * `getToolStats`: the `forEach` over the conversations, counting each under
   * the project's own platform key (the conversations' data is not looked at).
   * No conversations give an empty map; otherwise one key, never empty, whose
   * count is the number of conversations.
   */
  method ToolStats(project: ProjectService.ProjectWithConversations) returns (toolCounts: map<string, nat>)
    ensures project.conversations == [] ==> toolCounts == map[]
    ensures project.conversations != [] ==> toolCounts == map[ToolKey(project.project.row.platform) := |project.conversations|]
    ensures forall k :: k in toolCounts ==> k != "" && toolCounts[k] == |project.conversations|
  {
    toolCounts := map[];
    var key := ToolKey(project.project.row.platform);
    var i := 0;
    while i < |project.conversations|
      invariant 0 <= i <= |project.conversations|
      invariant toolCounts == if i == 0 then map[] else map[key := i]
    {
      var tool := ToolKey(project.project.row.platform);
      var previous := if tool in toolCounts then toolCounts[tool] else 0;
      toolCounts := toolCounts[tool := previous + 1];
      i := i + 1;
    }
  }
}
