/** `ToolRegistry`: registered tools by name, in first-registration order,
    plus the tool definitions read from YAML at start-up. */
module Registry {

  import opened Wrappers
  import opened Tools
  import OM = OrderedMaps

  /** A YAML tool definition (its top-level string fields). */
  type Definition = map<string, string>

  type ToolTable = OM.OrderedMap<string, Tool>

  /** Every tool is filed under its own name. */
  ghost predicate NamedByKey(tools: ToolTable) {
    forall k :: k in tools.items ==> NameOf(tools.items[k]) == k
  }

  /** `register(tool)`: `tools[tool.name] = tool`. */
  function Registered(tools: ToolTable, t: Tool): (r: ToolTable)
    requires OM.Valid(tools)
    ensures OM.Valid(r)
  {
    OM.Put(tools, NameOf(t), t)
  }

  lemma RegisteredNamedByKey(tools: ToolTable, t: Tool)
    requires OM.Valid(tools) && NamedByKey(tools)
    ensures NamedByKey(Registered(tools, t))
  {
  }

  /** `get_schemas()`: one schema per tool, in `list_tools` order. */
  function Schemas(tools: ToolTable): (s: seq<ToolSchema>)
    requires OM.Valid(tools)
    ensures |s| == |tools.keys|
  {
    seq(|tools.keys|, i requires 0 <= i < |tools.keys| => SchemaOf(tools.items[tools.keys[i]]))
  }

  class ToolRegistry {
    var tools: ToolTable
    var definitions: map<string, Definition>

    ghost predicate Valid()
      reads this
    {
      OM.Valid(tools) && NamedByKey(tools)
    }

    /** Reading the YAML directory is not modelled: the definitions it
        yields are a parameter. */
    constructor (definitions: map<string, Definition>)
      ensures Valid() && tools == OM.Empty() && this.definitions == definitions
    {
      tools := OM.Empty();
      this.definitions := definitions;
    }

    method Register(t: Tool)
      requires Valid()
      modifies this
      ensures Valid()
      ensures tools == Registered(old(tools), t) && definitions == old(definitions)
    {
      RegisteredNamedByKey(tools, t);
      tools := OM.Put(tools, NameOf(t), t);
    }

    function Get(name: string): (r: Option<Tool>)
      reads this
      ensures r.Some? <==> name in tools.items
      ensures r.Some? ==> r.value == tools.items[name]
    {
      OM.Get(tools, name)
    }

    function ListTools(): (names: seq<string>)
      reads this
      ensures names == tools.keys
    {
      tools.keys
    }

    method GetSchemas() returns (schemas: seq<ToolSchema>)
      requires Valid()
      ensures schemas == Schemas(tools)
    {
      schemas := [];
      for i := 0 to |tools.keys|
        invariant |schemas| == i
        invariant forall j :: 0 <= j < i ==> schemas[j] == SchemaOf(tools.items[tools.keys[j]])
      {
        schemas := schemas + [SchemaOf(tools.items[tools.keys[i]])];
      }
    }

    function GetDefinition(name: string): (d: Option<Definition>)
      reads this
      ensures d.Some? <==> name in definitions
      ensures d.Some? ==> d.value == definitions[name]
    {
      if name in definitions then Some(definitions[name]) else None
    }
  }

  /** `register` files the tool under its name, replacing any earlier tool of
      that name; the order only grows by a new name at the end, and a
      re-registered name keeps its place. */
  lemma RegisterReplaces(tools: ToolTable, t: Tool, name: string)
    requires OM.Valid(tools)
    ensures var r := Registered(tools, t);
      && OM.Get(r, NameOf(t)) == Some(t)
      && (name != NameOf(t) ==> OM.Get(r, name) == OM.Get(tools, name))
      && (NameOf(t) in tools.items ==> r.keys == tools.keys)
      && (NameOf(t) !in tools.items ==> r.keys == tools.keys + [NameOf(t)])
  {
  }

  /** The i-th schema belongs to the i-th listed tool; for a built-in it
      names that tool. */
  lemma SchemasFollowListOrder(tools: ToolTable, i: int)
    requires OM.Valid(tools) && NamedByKey(tools) && 0 <= i < |tools.keys|
    ensures Schemas(tools)[i] == SchemaOf(OM.Get(tools, tools.keys[i]).value)
    ensures tools.items[tools.keys[i]].Builtin? ==> Schemas(tools)[i].fn.name == tools.keys[i]
  {
  }
}
