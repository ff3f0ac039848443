/**
 * The statistics cards (the StatsCards component): the number of distinct
 * tool platforms among the projects.
 */
module StatsCards {
  import ProjectList

  datatype MySQLProject = MySQLProject(
    id: int, workspaceId: string, platform: string, name: string, path: string,
    createdAt: string, updatedAt: string)

  /** The keys the projects are counted under. */
  function PlatformKeys(ps: seq<MySQLProject>): set<string> {
    if ps == [] then {}
    else PlatformKeys(ps[..|ps| - 1]) + {ProjectList.ToolKey(ps[|ps| - 1].platform)}
  }

  /** `getToolStats`: fills `toolCounts` in a `forEach`, then counts its keys. */
  method DistinctPlatformCount(projects: seq<MySQLProject>) returns (n: nat)
    ensures n == |PlatformKeys(projects)|
  {
    var toolCounts: map<string, nat> := map[];
    var i := 0;
    while i < |projects|
      invariant 0 <= i <= |projects|
      invariant toolCounts.Keys == PlatformKeys(projects[..i])
    {
      assert projects[..i + 1][..i] == projects[..i];
      var tool := ProjectList.ToolKey(projects[i].platform);
      var previous := if tool in toolCounts then toolCounts[tool] else 0;
      toolCounts := toolCounts[tool := previous + 1];
      i := i + 1;
    }
    assert projects[..i] == projects;
    n := |toolCounts.Keys|;
  }

  /** A key is counted exactly when some project is counted under it. */
  lemma {:induction false} PlatformKeysExact(ps: seq<MySQLProject>, k: string)
    ensures k in PlatformKeys(ps) <==> exists i :: 0 <= i < |ps| && ProjectList.ToolKey(ps[i].platform) == k
  {
    if ps != [] {
      var init := ps[..|ps| - 1];
      PlatformKeysExact(init, k);
      if exists i :: 0 <= i < |ps| && ProjectList.ToolKey(ps[i].platform) == k {
        var i :| 0 <= i < |ps| && ProjectList.ToolKey(ps[i].platform) == k;
        if i < |init| {
          assert init[i] == ps[i];
        }
      }
      if exists i :: 0 <= i < |init| && ProjectList.ToolKey(init[i].platform) == k {
        var i :| 0 <= i < |init| && ProjectList.ToolKey(init[i].platform) == k;
        assert ps[i] == init[i];
      }
    }
  }

  /** No projects give 0, and any project gives at least 1. */
  lemma ZeroIffEmpty(ps: seq<MySQLProject>)
    ensures |PlatformKeys(ps)| == 0 <==> ps == []
  {
    if ps != [] {
      assert ProjectList.ToolKey(ps[|ps| - 1].platform) in PlatformKeys(ps);
    }
  }

  /** There are never more platforms than projects. */
  lemma {:induction false} AtMostOnePerProject(ps: seq<MySQLProject>)
    ensures |PlatformKeys(ps)| <= |ps|
  {
    if ps != [] {
      AtMostOnePerProject(ps[..|ps| - 1]);
    }
  }

  /** Naming an unnamed platform 'unknown' does not change the count. */
  lemma {:induction false} UnknownCollapses(ps: seq<MySQLProject>, i: nat)
    requires i < |ps| && ps[i].platform == ""
    ensures PlatformKeys(ps[i := ps[i].(platform := ProjectList.Unknown)]) == PlatformKeys(ps)
  {
    var qs := ps[i := ps[i].(platform := ProjectList.Unknown)];
    var n := |ps| - 1;
    if i < n {
      UnknownCollapses(ps[..n], i);
      assert qs[..n] == ps[..n][i := ps[i].(platform := ProjectList.Unknown)];
    } else {
      assert qs[..n] == ps[..n];
    }
  }
}
