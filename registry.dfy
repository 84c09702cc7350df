/**
 * The tool registry: a name -> tool dictionary in which the last registration
 * of a name wins. A Python dict keeps its keys in first-insertion order, which
 * `names` records.
 */
module Registry {
  import opened Wrappers
  import opened Seqs

  /** What the registry needs of a tool: its declared name (and its description). */
  datatype Tool = Tool(name: string, description: string)

  class ToolRegistry {
    var tools: map<string, Tool>
    var names: seq<string>

    ghost predicate Valid()
      reads this
    {
      && NoDuplicates(names)
      && (forall i :: 0 <= i < |names| ==> names[i] in tools)
      && (forall n :: n in tools ==> n in names)
      && (forall n :: n in tools ==> tools[n].name == n)
    }

    constructor ()
      ensures Valid()
      ensures tools == map[] && names == []
    {
      tools := map[];
      names := [];
    }

    /** `self.tools[tool.name] = tool`. */
    method Register(tool: Tool)
      requires Valid()
      modifies this
      ensures Valid()
      ensures tools == old(tools)[tool.name := tool]
      ensures names == if tool.name in old(tools) then old(names) else old(names) + [tool.name]
      ensures |tools| == if tool.name in old(tools) then old(|tools|) else old(|tools|) + 1
    {
      if tool.name !in tools {
        names := names + [tool.name];
      }
      tools := tools[tool.name := tool];
    }

    /** `self.tools.get(name)`: absence is `None`, never a failure. */
    method GetTool(name: string) returns (r: Option<Tool>)
      requires Valid()
      ensures r.Some? <==> name in tools
      ensures r.Some? ==> r.value == tools[name] && r.value.name == name
    {
      r := if name in tools then Some(tools[name]) else None;
    }

    /** `list(self.tools.keys())`: each registered name once, in order of first registration. */
    method ListToolNames() returns (r: seq<string>)
      requires Valid()
      ensures NoDuplicates(r)
      ensures forall n :: n in r <==> n in tools
      ensures |r| == |tools|
      ensures r == names
    {
      r := names;
      NamesCountKeys(names, tools);
    }
  }

  /** A duplicate-free listing of a map's keys has as many entries as the map. */
  lemma {:induction false} NamesCountKeys(names: seq<string>, m: map<string, Tool>)
    requires NoDuplicates(names)
    requires forall i :: 0 <= i < |names| ==> names[i] in m
    requires forall n :: n in m ==> n in names
    ensures |names| == |m|
    decreases |names|
  {
    if names == [] {
      assert m.Keys == {};
    } else {
      var last := names[|names| - 1];
      var init := names[..|names| - 1];
      var rest := map n | n in m && n != last :: m[n];
      forall n | n in rest ensures n in init {
        var i :| 0 <= i < |names| && names[i] == n;
        assert i != |names| - 1;
        assert init[i] == n;
      }
      NamesCountKeys(init, rest);
      assert m.Keys == rest.Keys + {last};
    }
  }

  /** Registering a tool and then looking its name up yields that tool; every other name is untouched. */
  method RegisterThenGet(registry: ToolRegistry, tool: Tool, other: string) returns (found: Option<Tool>, otherBefore: Option<Tool>, otherAfter: Option<Tool>)
    requires registry.Valid()
    requires other != tool.name
    modifies registry
    ensures found == Some(tool)
    ensures otherAfter == otherBefore
  {
    otherBefore := registry.GetTool(other);
    registry.Register(tool);
    found := registry.GetTool(tool.name);
    otherAfter := registry.GetTool(other);
  }
}
