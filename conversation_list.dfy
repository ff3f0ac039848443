/**
 * A project's conversation list (the ConversationList component): filtering
 * by the selected tools, toggling a tool in the selection, and grouping the
 * shown conversations by tool.
 */
module ConversationList {
  import Seqs
  import opened Archive

  /** `filteredConversations`: all of them with no tool selected, otherwise those of a selected tool, in order. */
  function FilteredConversations(convs: seq<Conversation>, selectedTools: seq<string>): (r: seq<Conversation>)
    ensures selectedTools == [] ==> r == convs
    ensures selectedTools != [] ==> forall c :: c in r <==> c in convs && c.tool in selectedTools
    ensures |r| <= |convs|
  {
    if selectedTools == [] then convs
    else
      var selected := (c: Conversation) => c.tool in selectedTools;
      FilterExact(convs, selected);
      Seqs.Filter(convs, selected)
  }

  lemma FilterExact<T>(s: seq<T>, p: T -> bool)
    ensures forall x :: x in Seqs.Filter(s, p) <==> x in s && p(x)
  {
    forall x | x in s && p(x) ensures x in Seqs.Filter(s, p) {
      Seqs.FilterKeeps(s, p, x);
    }
  }

  /** The filter keeps relative order: filtering a concatenation filters each part. */
  lemma FilteredConcat(a: seq<Conversation>, b: seq<Conversation>, selectedTools: seq<string>)
    ensures FilteredConversations(a + b, selectedTools) == FilteredConversations(a, selectedTools) + FilteredConversations(b, selectedTools)
  {
    if selectedTools != [] {
      Seqs.FilterConcat(a, b, (c: Conversation) => c.tool in selectedTools);
    }
  }

  function Without(tools: seq<string>, tool: string): (r: seq<string>)
    ensures forall t :: t in r <==> t in tools && t != tool
  {
    var other := (t: string) => t != tool;
    FilterExact(tools, other);
    Seqs.Filter(tools, other)
  }

  /**
   * `handleToolToggle`: a selected tool is removed (every occurrence), an
   * unselected one is appended; the selection changes by exactly that tool.
   */
  function ToggleTool(selectedTools: seq<string>, tool: string): (r: seq<string>)
    ensures forall t :: t in r <==> (t in selectedTools) != (t == tool)
    ensures tool !in selectedTools ==> r == selectedTools + [tool]
    ensures tool in selectedTools ==> r == Without(selectedTools, tool) && |r| < |selectedTools|
  {
    if tool in selectedTools then
      Seqs.FilterKeeps(selectedTools, (t: string) => t == tool, tool);
      LengthWithout(selectedTools, tool);
      Without(selectedTools, tool)
    else selectedTools + [tool]
  }

  lemma {:induction false} LengthWithout(tools: seq<string>, tool: string)
    requires tool in tools
    ensures |Without(tools, tool)| < |tools|
  {
    var other := (t: string) => t != tool;
    var i :| 0 <= i < |tools| && tools[i] == tool;
    assert tools == tools[..i] + [tool] + tools[i + 1..];
    Seqs.FilterConcat(tools[..i] + [tool], tools[i + 1..], other);
    Seqs.FilterConcat(tools[..i], [tool], other);
    assert Seqs.Filter([tool], other) == [];
  }

  /**
   * Removing a tool keeps every other entry, with its order and its
   * repetitions: removal works entry by entry and distributes over
   * concatenation.
   */
  lemma WithoutKeepsOthers(a: seq<string>, b: seq<string>, t: string, tool: string)
    ensures Without(a + b, tool) == Without(a, tool) + Without(b, tool)
    ensures Without([t], tool) == if t == tool then [] else [t]
  {
    Seqs.FilterConcat(a, b, (x: string) => x != tool);
    assert [t][1..] == [];
  }

  /** Toggling an unselected tool twice gives back the original selection. */
  lemma ToggleTwice(selectedTools: seq<string>, tool: string)
    requires tool !in selectedTools
    ensures ToggleTool(ToggleTool(selectedTools, tool), tool) == selectedTools
  {
    var other := (t: string) => t != tool;
    Seqs.FilterConcat(selectedTools, [tool], other);
    Seqs.FilterAll(selectedTools, other);
    assert Seqs.Filter([tool], other) == [];
  }

  // Grouping by tool.

  /** The conversations of `cs` of tool `t`, in order. */
  function OfTool(cs: seq<Conversation>, t: string): (r: seq<Conversation>)
    ensures |r| <= |cs|
  {
    if cs == [] then []
    else OfTool(cs[..|cs| - 1], t) + (if cs[|cs| - 1].tool == t then [cs[|cs| - 1]] else [])
  }

  /** The tools of `cs` in order of first occurrence: the order of the groups' keys. */
  function DistinctTools(cs: seq<Conversation>): seq<string> {
    if cs == [] then []
    else
      var init := DistinctTools(cs[..|cs| - 1]);
      if cs[|cs| - 1].tool in init then init else init + [cs[|cs| - 1].tool]
  }

  /**
   * `groupedConversations`: the `forEach` filling `groups`, returned with
   * its key insertion order. Each tool's group is that tool's conversations
   * in order, and the keys are exactly the tools that occur.
   */
  method GroupByTool(filtered: seq<Conversation>) returns (groups: map<string, seq<Conversation>>, keyOrder: seq<string>)
    ensures keyOrder == DistinctTools(filtered)
    ensures forall t :: t in groups <==> t in keyOrder
    ensures forall t :: t in groups ==> groups[t] == OfTool(filtered, t)
  {
    groups := map[];
    keyOrder := [];
    var i := 0;
    while i < |filtered|
      invariant 0 <= i <= |filtered|
      invariant keyOrder == DistinctTools(filtered[..i])
      invariant forall t :: t in groups <==> t in keyOrder
      invariant forall t :: t in groups ==> groups[t] == OfTool(filtered[..i], t)
    {
      var conv := filtered[i];
      assert filtered[..i + 1][..i] == filtered[..i];
      if conv.tool !in groups {
        OfToolAbsent(filtered[..i], conv.tool);
        groups := groups[conv.tool := []];
        keyOrder := keyOrder + [conv.tool];
      }
      groups := groups[conv.tool := groups[conv.tool] + [conv]];
      i := i + 1;
    }
    assert filtered[..i] == filtered;
  }

  /** A tool that does not occur has an empty group. */
  lemma {:induction false} OfToolAbsent(cs: seq<Conversation>, t: string)
    requires t !in DistinctTools(cs)
    ensures OfTool(cs, t) == []
  {
    if cs != [] {
      OfToolAbsent(cs[..|cs| - 1], t);
    }
  }

  /** The keys are the tools that occur, each once. */
  lemma {:induction false} DistinctToolsExact(cs: seq<Conversation>)
    ensures forall t :: t in DistinctTools(cs) <==> exists c :: c in cs && c.tool == t
    ensures forall i, j :: 0 <= i < j < |DistinctTools(cs)| ==> DistinctTools(cs)[i] != DistinctTools(cs)[j]
  {
    if cs != [] {
      var init := cs[..|cs| - 1];
      DistinctToolsExact(init);
      assert cs == init + [cs[|cs| - 1]];
      forall t | exists c :: c in cs && c.tool == t ensures t in DistinctTools(cs) {
        var c :| c in cs && c.tool == t;
        if c != cs[|cs| - 1] {
          assert c in init;
        }
      }
    }
  }

  /** Every conversation lands in its own tool's group. */
  lemma {:induction false} InOwnGroup(cs: seq<Conversation>, c: Conversation)
    requires c in cs
    ensures c in OfTool(cs, c.tool)
  {
    if c != cs[|cs| - 1] {
      assert cs == cs[..|cs| - 1] + [cs[|cs| - 1]];
      InOwnGroup(cs[..|cs| - 1], c);
    }
  }

  /** The total size of the groups of the tools `ts`. */
  function GroupSizes(ts: seq<string>, cs: seq<Conversation>): nat {
    if ts == [] then 0 else GroupSizes(ts[..|ts| - 1], cs) + |OfTool(cs, ts[|ts| - 1])|
  }

  lemma {:induction false} GroupSizesSnoc(ts: seq<string>, cs: seq<Conversation>, c: Conversation)
    requires forall i, j :: 0 <= i < j < |ts| ==> ts[i] != ts[j]
    ensures GroupSizes(ts, cs + [c]) == GroupSizes(ts, cs) + (if c.tool in ts then 1 else 0)
  {
    if ts != [] {
      var init := ts[..|ts| - 1];
      GroupSizesSnoc(init, cs, c);
      assert (cs + [c])[..|cs + [c]| - 1] == cs;
      assert ts == init + [ts[|ts| - 1]];
    }
  }

  /** Grouping partitions the list: the group sizes add up to the number of conversations. */
  lemma {:induction false} GroupsPartition(cs: seq<Conversation>)
    ensures GroupSizes(DistinctTools(cs), cs) == |cs|
  {
    if cs != [] {
      var init := cs[..|cs| - 1];
      var c := cs[|cs| - 1];
      var ts := DistinctTools(init);
      GroupsPartition(init);
      DistinctToolsExact(init);
      assert cs == init + [c];
      GroupSizesSnoc(ts, init, c);
      if c.tool !in ts {
        OfToolAbsent(init, c.tool);
        assert DistinctTools(cs)[..|DistinctTools(cs)| - 1] == ts;
      }
    }
  }
}
