/** The tools of an agent, and how the calls of a response are cut into groups that may run
    together. */
module ToolGroups {
  import opened Contracts
  import opened Trace

  datatype Tool = Tool(name: string, identity: string,
                       concurrency: ToolCall -> Concurrency, effect: ToolCall -> Effect)

  predicate DistinctNames(tools: seq<Tool>) {
    forall i, j :: 0 <= i < j < |tools| ==> tools[i].name != tools[j].name
  }

  /** The environment check's first duplicate call name. */
  method FirstDuplicate(tools: seq<Tool>) returns (name: Option<string>)
    ensures name.None? <==> DistinctNames(tools)
    ensures name.Some? ==> exists i, j :: 0 <= i < j < |tools| && tools[i].name == tools[j].name == name.value
  {
    var names: set<string> := {};
    for k := 0 to |tools|
      invariant names == set i | 0 <= i < k :: tools[i].name
      invariant DistinctNames(tools[..k])
    {
      if tools[k].name in names {
        return Some(tools[k].name);
      }
      names := names + {tools[k].name};
      assert tools[..k + 1] == tools[..k] + [tools[k]];
    }
    assert tools[..|tools|] == tools;
    return None;
  }

  /** A call may overlap others only when its tool says so and it neither writes nor delegates. */
  predicate IsShared(call: ToolCall, tool: Option<Tool>, maxParallel: nat) {
    tool.Some? && MayOverlap(tool.value.concurrency(call), tool.value.effect(call), maxParallel)
  }

  /** A call begins as the tool assembled under its name describes it, within the agent's bound. */
  ghost predicate BegunAs(e: Event, tools: seq<Tool>, maxParallel: nat) {
    e.Began? ==>
      var tool := Lookup(tools, e.call.name);
      && tool.Some? && e.limit == maxParallel
      && e.concurrency == tool.value.concurrency(e.call) && e.effect == tool.value.effect(e.call)
  }

  datatype Range = Range(start: nat, end: nat)

  predicate SharedAt(calls: seq<ToolCall>, tools: seq<Option<Tool>>, maxParallel: nat, i: nat)
    requires i < |calls| == |tools|
  {
    IsShared(calls[i], tools[i], maxParallel)
  }

  /** The groups are the first `n` calls cut, in order, into single calls and runs of shared
      ones; a group ends only where two neighbours are not both shared. */
  ghost predicate MaximalGroups(groups: seq<Range>, n: nat, calls: seq<ToolCall>, tools: seq<Option<Tool>>,
                                maxParallel: nat)
    requires n <= |calls| == |tools|
  {
    if groups == [] then n == 0
    else
      var last := groups[|groups| - 1];
      && last.start < last.end == n
      && (last.start + 1 < n ==> forall i :: last.start <= i < n ==> SharedAt(calls, tools, maxParallel, i))
      && (n == |calls| || !(SharedAt(calls, tools, maxParallel, n - 1) && SharedAt(calls, tools, maxParallel, n)))
      && MaximalGroups(groups[..|groups| - 1], last.start, calls, tools, maxParallel)
  }

  method Groups(calls: seq<ToolCall>, tools: seq<Option<Tool>>, maxParallel: nat) returns (groups: seq<Range>)
    requires |calls| == |tools|
    ensures MaximalGroups(groups, |calls|, calls, tools, maxParallel)
  {
    hide IsShared;
    groups := [];
    var start := 0;
    while start < |calls|
      invariant 0 <= start <= |calls|
      invariant MaximalGroups(groups, start, calls, tools, maxParallel)
    {
      var end := start + 1;
      if SharedAt(calls, tools, maxParallel, start) {
        while end < |calls| && SharedAt(calls, tools, maxParallel, end)
          invariant start < end <= |calls|
          invariant forall i :: start <= i < end ==> SharedAt(calls, tools, maxParallel, i)
        {
          end := end + 1;
        }
      }
      assert (groups + [Range(start, end)])[..|groups|] == groups;
      groups := groups + [Range(start, end)];
      start := end;
    }
  }

  /** Every cut of the groups is itself made of maximal groups. */
  lemma {:induction false} GroupsUpTo(groups: seq<Range>, n: nat, g: nat, calls: seq<ToolCall>,
                                      tools: seq<Option<Tool>>, maxParallel: nat)
    requires n <= |calls| == |tools| && MaximalGroups(groups, n, calls, tools, maxParallel)
    requires g < |groups|
    ensures groups[g].start < groups[g].end <= n
    ensures MaximalGroups(groups[..g], groups[g].start, calls, tools, maxParallel)
    ensures MaximalGroups(groups[..g + 1], groups[g].end, calls, tools, maxParallel)
  {
    hide IsShared;
    var m := |groups| - 1;
    if g == m {
      assert groups[..g + 1] == groups;
    } else {
      GroupsUpTo(groups[..m], groups[m].start, g, calls, tools, maxParallel);
      assert groups[..m][..g] == groups[..g] && groups[..m][..g + 1] == groups[..g + 1];
    }
  }

  function Lookup(tools: seq<Tool>, name: string): (tool: Option<Tool>)
    ensures tool.Some? ==> tool.value in tools && tool.value.name == name
    ensures tool.None? ==> forall t :: t in tools ==> t.name != name
  {
    if tools == [] then None
    else if tools[0].name == name then Some(tools[0])
    else Lookup(tools[1..], name)
  }

  lemma SameCut(groups: seq<Range>, m: nat, n: nat, calls: seq<ToolCall>, tools: seq<Option<Tool>>, maxParallel: nat)
    requires m <= |calls| == |tools| && n <= |calls|
    requires MaximalGroups(groups, m, calls, tools, maxParallel) && MaximalGroups(groups, n, calls, tools, maxParallel)
    ensures m == n
  {
  }

  lemma NoGroups(calls: seq<ToolCall>)
    ensures forall tools: seq<Option<Tool>>, groups: seq<Range>, maxParallel: nat | |tools| == |calls| ::
              MaximalGroups(groups[..0], 0, calls, tools, maxParallel)
  {
    assert forall groups: seq<Range> :: groups[..0] == [];
  }

  /** Where the next group starts, and whether its calls are shared. */
  method NextGroup(groups: seq<Range>, g: nat, done: nat, calls: seq<ToolCall>, tools: seq<Option<Tool>>,
                   maxParallel: nat)
    returns (shared: bool)
    requires g < |groups| && done <= |calls| == |tools|
    requires MaximalGroups(groups, |calls|, calls, tools, maxParallel)
    requires MaximalGroups(groups[..g], done, calls, tools, maxParallel)
    ensures groups[g].start == done < groups[g].end <= |calls|
    ensures MaximalGroups(groups[..g + 1], groups[g].end, calls, tools, maxParallel)
    ensures forall i :: done <= i < groups[g].end ==> (shared <==> SharedAt(calls, tools, maxParallel, i))
    ensures groups[g].end > done + 1 ==> shared
  {
    hide MaximalGroups, SharedAt;
    GroupsUpTo(groups, |calls|, g, calls, tools, maxParallel);
    SameCut(groups[..g], done, groups[g].start, calls, tools, maxParallel);
    LastIsShared(groups[..g + 1], groups[g].end, calls, tools, maxParallel);
    shared := SharedAt(calls, tools, maxParallel, done);
  }

  lemma LastIsShared(groups: seq<Range>, n: nat, calls: seq<ToolCall>, tools: seq<Option<Tool>>, maxParallel: nat)
    requires n <= |calls| == |tools| && groups != [] && MaximalGroups(groups, n, calls, tools, maxParallel)
    ensures var last := groups[|groups| - 1];
            && last.start < last.end == n
            && (last.start + 1 < n ==> forall i :: last.start <= i < n ==> SharedAt(calls, tools, maxParallel, i))
  {
  }
}
