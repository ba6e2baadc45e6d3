/**
 * The ReAct agent's tool registry (`ToolExecutor` in the_chapter_4/LLMClient.py):
 * a Python dict from tool name to {description, func}, which remembers the order
 * in which names were first inserted.
 */
module ToolRegistry {
  import opened Wrappers
  import opened Text

  /** The value `registerTool` stores under a name. */
  datatype ToolEntry<F> = ToolEntry(description: string, func: F)

  ghost predicate Distinct(s: seq<string>) {
    forall i, j :: 0 <= i < j < |s| ==> s[i] != s[j]
  }

  /** A dict given as its keys in insertion order and its contents. */
  ghost predicate IsDict<F>(order: seq<string>, tools: map<string, ToolEntry<F>>) {
    Distinct(order) && (forall n :: n in order <==> n in tools)
  }

  /** One line of `getAvailableTools`: `- name: description`. */
  function ToolLine(name: string, description: string): string {
    "- " + name + ": " + description
  }

  /** The lines `getAvailableTools` joins, in the dict's iteration order. */
  function Lines<F>(order: seq<string>, tools: map<string, ToolEntry<F>>): (r: seq<string>)
    requires forall n :: n in order ==> n in tools
    ensures |r| == |order|
  {
    if order == [] then []
    else
      var last := order[|order| - 1];
      Lines(order[..|order| - 1], tools) + [ToolLine(last, tools[last].description)]
  }

  /** The i-th line describes the i-th registered name with its current description. */
  lemma {:induction false} LinesAt<F>(order: seq<string>, tools: map<string, ToolEntry<F>>)
    requires forall n :: n in order ==> n in tools
    ensures |Lines(order, tools)| == |order|
    ensures forall i :: 0 <= i < |order| ==>
      Lines(order, tools)[i] == ToolLine(order[i], tools[order[i]].description)
  {
    if order != [] {
      var init := order[..|order| - 1];
      assert forall n :: n in init ==> n in order;
      LinesAt(init, tools);
    }
  }

  /**
   * Registering a name that is already there replaces its line, in the position
   * the name first had, by one with the new description; every other line stays.
   */
  lemma {:induction false} LinesAfterOverwrite<F>(order: seq<string>, tools: map<string, ToolEntry<F>>,
                               name: string, description: string, func: F)
    requires forall n :: n in order ==> n in tools
    ensures forall i :: 0 <= i < |order| ==>
      Lines(order, tools[name := ToolEntry(description, func)])[i] ==
        if order[i] == name then ToolLine(name, description) else Lines(order, tools)[i]
  {
    LinesAt(order, tools);
    LinesAt(order, tools[name := ToolEntry(description, func)]);
  }

  /** Registering a new name adds its line at the end and leaves the others. */
  lemma {:induction false} LinesAfterInsert<F>(order: seq<string>, tools: map<string, ToolEntry<F>>,
                            name: string, description: string, func: F)
    requires IsDict(order, tools) && name !in tools
    ensures Lines(order + [name], tools[name := ToolEntry(description, func)])
         == Lines(order, tools) + [ToolLine(name, description)]
  {
    var tools' := tools[name := ToolEntry(description, func)];
    var order' := order + [name];
    LinesAt(order, tools);
    LinesAt(order', tools');
    assert forall i :: 0 <= i < |order| ==> order'[i] == order[i];
  }

  /** The registry. Its dict is `order` (keys by first insertion) together with `tools`. */
  class ToolExecutor<F> {
    var order: seq<string>
    var tools: map<string, ToolEntry<F>>

    ghost predicate Valid()
      reads this
    {
      IsDict(order, tools)
    }

    constructor ()
      ensures Valid() && order == [] && tools == map[]
    {
      order := [];
      tools := map[];
    }

    /**
     * `registerTool`: stores the entry, overwriting one of the same name. The result
     * is the warning the source prints when it overwrites.
     */
    method RegisterTool(name: string, description: string, func: F) returns (overwritten: bool)
      requires Valid()
      modifies this
      ensures Valid()
      ensures overwritten == (name in old(tools))
      ensures tools == old(tools)[name := ToolEntry(description, func)]
      ensures order == if overwritten then old(order) else old(order) + [name]
    {
      overwritten := name in tools;
      if !overwritten {
        order := order + [name];
      }
      tools := tools[name := ToolEntry(description, func)];
    }

    /** `getTool`: the function registered under `name`, or None. */
    function GetTool(name: string): (r: Option<F>)
      reads this
      ensures r.Some? <==> name in tools
      ensures r.Some? ==> r.value == tools[name].func
    {
      if name in tools then Some(tools[name].func) else None
    }

    /** `getAvailableTools`: the tool lines joined by newlines. */
    function GetAvailableTools(): (r: string)
      reads this
      requires Valid()
      ensures order == [] ==> r == ""
    {
      Join(Lines(order, tools), "\n")
    }
  }

  /** Registering the same name twice keeps the second function and one entry. */
  method RegisterTwice<F>(name: string, d1: string, f1: F, d2: string, f2: F)
    returns (r: Option<F>, count: nat)
    ensures r == Some(f2)
    ensures count == 1
  {
    var registry := new ToolExecutor<F>();
    var _ := registry.RegisterTool(name, d1, f1);
    var _ := registry.RegisterTool(name, d2, f2);
    r := registry.GetTool(name);
    count := |registry.order|;
  }
}
