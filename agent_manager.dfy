/** The capability registry (agents/agent_manager.py): named agents, each a
    table of named callables, a two-level dispatch that reports a missing
    agent or function as an error record instead of raising, registration,
    and the plain-text catalogue of the registered agents. */
module Agents {
  import opened Dicts
  import opened Python

  /** A capability: called as `f(input_data, *args, **kwargs)`. Its body is
      the user's, so it is any function of its arguments that returns or
      raises. */
  type Capability = (Value, seq<Value>, map<string, Value>) -> Outcome<Value>

  /** DynamicAgent: fixed at construction, never mutated afterwards. */
  datatype Agent = Agent(name: string, description: string, inputType: string, functions: PyDict<Capability>) {

    /** DynamicAgent.execute_function(function_name, input_data, *args, **kwargs) */
    function ExecuteFunction(functionName: Value, inputData: Value, args: seq<Value>, kwargs: map<string, Value>): (r: Outcome<Value>)
      ensures functionName.Dict? ==> r == Raised(TypeError("unhashable type: 'dict'"))
      ensures functionName.Str? && functionName.s in functions.entries ==>
                r == functions.entries[functionName.s](inputData, args, kwargs)
      ensures !functionName.Dict? && !(functionName.Str? && functionName.s in functions.entries) ==>
                r == Returned(ErrorRecord("Function " + Render(functionName) + " not found in " + name))
    {
      if functionName.Dict? then Raised(TypeError("unhashable type: 'dict'"))
      else if functionName.Str? && functionName.s in functions.entries then
        functions.entries[functionName.s](inputData, args, kwargs)
      else
        Returned(ErrorRecord("Function " + Render(functionName) + " not found in " + name))
    }
  }

  /** The parameters of AgentManager.execute_function once Python has bound a
      call to `(self, agent_name, function_name, input_data=None, *args, **kwargs)`. */
  datatype BoundCall = BoundCall(agentName: Value, functionName: Value, inputData: Value, args: seq<Value>, kwargs: map<string, Value>)

  /** A call as written at a call site: positional arguments and keyword arguments. */
  datatype PythonCall = PythonCall(positional: seq<Value>, keywords: map<string, Value>)

  /** Python's argument binding for AgentManager.execute_function: positional
      arguments fill the named parameters in order and the rest go to `*args`;
      a keyword naming `self` or an already-filled parameter is a `TypeError`;
      a keyword naming an unfilled parameter fills it; the other keywords go to
      `**kwargs`; `agent_name` and `function_name` are required and
      `input_data` defaults to `None`. */
  function Bind(call: PythonCall): (r: Outcome<BoundCall>)
    ensures r.Returned? ==> r.value.args == (if |call.positional| > 3 then call.positional[3..] else [])
    ensures r.Returned? ==> r.value.kwargs.Keys !! {"self", "agent_name", "function_name", "input_data"}
  {
    var pos, kw := call.positional, call.keywords;
    if "self" in kw then
      Raised(TypeError("execute_function() got multiple values for argument 'self'"))
    else if (|pos| > 0 && "agent_name" in kw) || (|pos| > 1 && "function_name" in kw) || (|pos| > 2 && "input_data" in kw) then
      Raised(TypeError("execute_function() got multiple values for an argument"))
    else if !(|pos| > 0 || "agent_name" in kw) || !(|pos| > 1 || "function_name" in kw) then
      Raised(TypeError("execute_function() missing a required positional argument"))
    else
      Returned(BoundCall(
        if |pos| > 0 then pos[0] else kw["agent_name"],
        if |pos| > 1 then pos[1] else kw["function_name"],
        if |pos| > 2 then pos[2] else if "input_data" in kw then kw["input_data"] else NoneV,
        if |pos| > 3 then pos[3..] else [],
        kw - {"agent_name", "function_name", "input_data"}))
  }

  /** AgentManager.execute_function over the registry's dictionary, once the
      arguments are bound. Looking up an unhashable name raises; the error
      records are returned, not raised. */
  function Dispatch(registry: PyDict<Agent>, agentName: Value, functionName: Value, inputData: Value,
                    args: seq<Value>, kwargs: map<string, Value>): (r: Outcome<Value>)
    ensures agentName.Dict? ==> r == Raised(TypeError("unhashable type: 'dict'"))
    ensures !agentName.Dict? && !(agentName.Str? && agentName.s in registry.entries) ==>
              r == Returned(ErrorRecord("Agent " + Render(agentName) + " not found"))
    ensures agentName.Str? && agentName.s in registry.entries ==>
              r == registry.entries[agentName.s].ExecuteFunction(functionName, inputData, args, kwargs)
  {
    if agentName.Dict? then Raised(TypeError("unhashable type: 'dict'"))
    else if agentName.Str? && agentName.s in registry.entries then
      registry.entries[agentName.s].ExecuteFunction(functionName, inputData, args, kwargs)
    else
      Returned(ErrorRecord("Agent " + Render(agentName) + " not found"))
  }

  /** A call `agent_manager.execute_function(*positional, **keywords)`. */
  function Call(registry: PyDict<Agent>, call: PythonCall): Outcome<Value> {
    match Bind(call)
    case Raised(e) => Raised(e)
    case Returned(b) => Dispatch(registry, b.agentName, b.functionName, b.inputData, b.args, b.kwargs)
  }

  /** The usual call shape `execute_function(agent, function, *rest, **keywords)`
      with keywords that name no parameter: `rest[0]` (or `None`) is the
      input, the remaining positionals are `*args`, and the keywords are
      passed on unchanged. */
  lemma BindTwoPositional(agentName: Value, functionName: Value, rest: seq<Value>, keywords: map<string, Value>)
    requires keywords.Keys !! {"self", "agent_name", "function_name", "input_data"}
    ensures Bind(PythonCall([agentName, functionName] + rest, keywords)) ==
              Returned(BoundCall(agentName, functionName, if |rest| > 0 then rest[0] else NoneV,
                                 if |rest| > 0 then rest[1..] else [], keywords))
  {
    var pos := [agentName, functionName] + rest;
    assert "self" !in keywords && "agent_name" !in keywords;
    assert "function_name" !in keywords && "input_data" !in keywords;
    assert pos[0] == agentName && pos[1] == functionName;
    assert |pos| > 2 ==> pos[2] == rest[0];
    assert |pos| > 3 ==> pos[3..] == rest[1..];
    assert keywords - {"agent_name", "function_name", "input_data"} == keywords;
  }

  /** A name that is not registered is reported, whatever the function name
      and arguments, and no capability is called. */
  lemma UnknownAgentReported(registry: PyDict<Agent>, name: string, functionName: Value, inputData: Value,
                             args: seq<Value>, kwargs: map<string, Value>)
    requires name !in registry.entries
    ensures Dispatch(registry, Str(name), functionName, inputData, args, kwargs) ==
              Returned(ErrorRecord("Agent " + name + " not found"))
  {
  }

  /** A registered agent with a known function: the capability is called with
      the input first and its result is returned untouched. */
  lemma KnownFunctionPassesThrough(registry: PyDict<Agent>, name: string, fn: string, inputData: Value,
                                   args: seq<Value>, kwargs: map<string, Value>)
    requires name in registry.entries && fn in registry.entries[name].functions.entries
    ensures Dispatch(registry, Str(name), Str(fn), inputData, args, kwargs) ==
              registry.entries[name].functions.entries[fn](inputData, args, kwargs)
  {
  }

  /** Every function the catalogue lists under an agent is one that
      dispatch reaches: the j-th name of the i-th agent's table calls that
      capability. */
  lemma ListedFunctionDispatches(registry: PyDict<Agent>, i: nat, j: nat, inputData: Value,
                                 args: seq<Value>, kwargs: map<string, Value>)
    requires registry.Valid() && forall n | n in registry.entries :: registry.entries[n].functions.Valid()
    requires i < |registry.keys| && j < |registry.entries[registry.keys[i]].functions.keys|
    ensures var a := registry.entries[registry.keys[i]];
            var fn := a.functions.keys[j];
            fn in a.functions.entries &&
            Dispatch(registry, Str(registry.keys[i]), Str(fn), inputData, args, kwargs) ==
              a.functions.entries[fn](inputData, args, kwargs)
  {
    var a := registry.entries[registry.keys[i]];
    KnownFunctionPassesThrough(registry, registry.keys[i], a.functions.keys[j], inputData, args, kwargs);
  }

  /** After `register_agent(a)`, dispatching to `a.name` reaches `a`, and
      dispatching to any other name behaves exactly as before. */
  lemma {:induction false} DispatchAfterRegister(registry: PyDict<Agent>, a: Agent, name: Value, functionName: Value,
                                                 inputData: Value, args: seq<Value>, kwargs: map<string, Value>)
    ensures name == Str(a.name) ==>
              Dispatch(registry.Put(a.name, a), name, functionName, inputData, args, kwargs) ==
              a.ExecuteFunction(functionName, inputData, args, kwargs)
    ensures name != Str(a.name) ==>
              Dispatch(registry.Put(a.name, a), name, functionName, inputData, args, kwargs) ==
              Dispatch(registry, name, functionName, inputData, args, kwargs)
  {
    var r' := registry.Put(a.name, a);
    if name.Str? && name.s != a.name {
      assert (name.s in r'.entries) == (name.s in registry.entries);
    }
  }

  // The catalogue rendered by generate_prompt.

  const CatalogueHeader := "You have access to multiple specialized agents with unique functionalities:\n\n"

  const CatalogueTrailer := "\nYou can instruct these agents to perform tasks for you. What would you like to do? "
    + "Remember to return the answer in the following format: {'result': 'your answer', 'success': True}"

  /** The first lines of one agent's block. */
  function AgentHeading(name: string, agent: Agent): string {
    "- " + name + ": " + agent.description + " with the following capabilities:\n. "
      + "It requires that the input looks like this: " + agent.inputType + "\n"
  }

  /** The line listing one function. */
  function FunctionLine(name: string): string {
    "  - " + name + "\n"
  }

  /** One line per function name, in order. */
  function FunctionLines(names: seq<string>): string {
    if names == [] then ""
    else FunctionLines(names[..|names| - 1]) + FunctionLine(names[|names| - 1])
  }

  function AgentBlock(name: string, agent: Agent): string {
    AgentHeading(name, agent) + FunctionLines(agent.functions.keys)
  }

  /** The blocks of the named agents, in the order of `names`. */
  function AgentBlocks(names: seq<string>, entries: map<string, Agent>): string
    requires forall i | 0 <= i < |names| :: names[i] in entries
  {
    if names == [] then ""
    else AgentBlocks(names[..|names| - 1], entries) + AgentBlock(names[|names| - 1], entries[names[|names| - 1]])
  }

  /** The whole prompt: header, one block per agent in iteration order, trailer. */
  function Catalogue(registry: PyDict<Agent>): string
    requires registry.Valid()
  {
    CatalogueHeader + AgentBlocks(registry.keys, registry.entries) + CatalogueTrailer
  }

  lemma {:induction false} AgentBlocksAppend(xs: seq<string>, ys: seq<string>, entries: map<string, Agent>)
    requires forall i | 0 <= i < |xs| :: xs[i] in entries
    requires forall i | 0 <= i < |ys| :: ys[i] in entries
    ensures AgentBlocks(xs + ys, entries) == AgentBlocks(xs, entries) + AgentBlocks(ys, entries)
  {
    if ys == [] {
      assert xs + ys == xs;
    } else {
      var ys' := ys[..|ys| - 1];
      var last := ys[|ys| - 1];
      assert (xs + ys)[..|xs + ys| - 1] == xs + ys';
      assert (xs + ys)[|xs + ys| - 1] == last;
      AgentBlocksAppend(xs, ys', entries);
      AppendAssociative(AgentBlocks(xs, entries), AgentBlocks(ys', entries), AgentBlock(last, entries[last]));
    }
  }

  /** The blocks of `names` do not depend on the entries of other names. */
  lemma {:induction false} AgentBlocksIgnoreOthers(names: seq<string>, entries: map<string, Agent>, n: string, a: Agent)
    requires forall i | 0 <= i < |names| :: names[i] in entries
    requires n !in names
    ensures AgentBlocks(names, entries[n := a]) == AgentBlocks(names, entries)
  {
    if names != [] {
      AgentBlocksIgnoreOthers(names[..|names| - 1], entries, n, a);
    }
  }

  /** Registering a new name adds its block at the end of the catalogue. */
  lemma RegisterNewAgentAppendsBlock(registry: PyDict<Agent>, a: Agent)
    requires registry.Valid() && a.name !in registry.entries
    ensures registry.Put(a.name, a).Valid()
    ensures Catalogue(registry.Put(a.name, a)) ==
              CatalogueHeader + AgentBlocks(registry.keys, registry.entries) + AgentBlock(a.name, a) + CatalogueTrailer
  {
    var ks, e := registry.keys, registry.entries;
    var r' := registry.Put(a.name, a);
    assert r'.keys == ks + [a.name] && r'.entries == e[a.name := a];
    assert (ks + [a.name])[..|ks|] == ks;
    AgentBlocksIgnoreOthers(ks, e, a.name, a);
    var B, X := AgentBlocks(ks, e), AgentBlock(a.name, a);
    assert AgentBlocks(r'.keys, r'.entries) == B + X;
    AppendAssociative(CatalogueHeader, B, X);
  }

  /** Re-registering a name replaces its block where it stands: the blocks
      before and after it are unchanged, so block order stays the order of
      first registration. */
  lemma ReRegisterKeepsBlockPosition(registry: PyDict<Agent>, a: Agent, i: nat)
    requires registry.Valid() && i < |registry.keys| && registry.keys[i] == a.name
    ensures registry.Put(a.name, a).Valid()
    ensures Catalogue(registry.Put(a.name, a)) ==
              CatalogueHeader + AgentBlocks(registry.keys[..i], registry.entries) + AgentBlock(a.name, a)
              + AgentBlocks(registry.keys[i + 1..], registry.entries) + CatalogueTrailer
  {
    var ks, e := registry.keys, registry.entries;
    ReplacedBlock(ks, e, a, i);
    var B, X, A := AgentBlocks(ks[..i], e), AgentBlock(a.name, a), AgentBlocks(ks[i + 1..], e);
    AppendAssociative(CatalogueHeader, B + X, A);
    AppendAssociative(CatalogueHeader, B, X);
  }

  /** Replacing the entry of the `i`-th of a list of distinct names
      replaces its block and no other. */
  lemma ReplacedBlock(ks: seq<string>, e: map<string, Agent>, a: Agent, i: nat)
    requires forall j | 0 <= j < |ks| :: ks[j] in e
    requires forall j, k | 0 <= j < k < |ks| :: ks[j] != ks[k]
    requires i < |ks| && ks[i] == a.name
    ensures AgentBlocks(ks, e[a.name := a]) ==
              AgentBlocks(ks[..i], e) + AgentBlock(a.name, a) + AgentBlocks(ks[i + 1..], e)
  {
    var e' := e[a.name := a];
    var before, after := ks[..i], ks[i + 1..];
    assert ks == before + [a.name] + after;
    assert a.name !in before && a.name !in after by {
      forall j | 0 <= j < |ks| && j != i ensures ks[j] != a.name { }
    }
    AgentBlocksAppend(before + [a.name], after, e');
    AgentBlocksAppend(before, [a.name], e');
    assert [a.name][..0] == [];
    assert AgentBlocks([a.name], e') == AgentBlock(a.name, a);
    AgentBlocksIgnoreOthers(before, e, a.name, a);
    AgentBlocksIgnoreOthers(after, e, a.name, a);
  }

  /** AgentManager: the registry of agents, keyed by agent name. */
  class AgentManager {
    var agents: PyDict<Agent>
    const expectedInputType: string

    /** Every agent is registered under its own name, and every table is
        a dict: its listed names are exactly its entries. */
    ghost predicate Valid()
      reads this
    {
      && agents.Valid()
      && (forall n | n in agents.entries :: agents.entries[n].name == n)
      && (forall n | n in agents.entries :: agents.entries[n].functions.Valid())
    }

    /** AgentManager.__init__: an empty registry. */
    constructor(expectedInputType: string := "JSON")
      ensures Valid()
      ensures agents.keys == [] && agents.entries == map[]
      ensures this.expectedInputType == expectedInputType
    {
      agents := Empty();
      this.expectedInputType := expectedInputType;
    }

    /** register_agent: insert or overwrite under `agent.name`. */
    method RegisterAgent(agent: Agent)
      requires Valid() && agent.functions.Valid()
      modifies this
      ensures Valid()
      ensures agents == old(agents).Put(agent.name, agent)
      ensures agents.entries == old(agents.entries)[agent.name := agent]
      ensures agent.name in old(agents.entries) ==> agents.keys == old(agents.keys)
      ensures agent.name !in old(agents.entries) ==> agents.keys == old(agents.keys) + [agent.name]
    {
      agents := agents.Put(agent.name, agent);
    }

    /** The inner loop of generate_prompt: one line per function name. */
    static method AppendFunctionLines(prompt: string, functionNames: seq<string>) returns (p: string)
      ensures p == prompt + FunctionLines(functionNames)
    {
      p := prompt;
      var j := 0;
      while j < |functionNames|
        invariant 0 <= j <= |functionNames|
        invariant p == prompt + FunctionLines(functionNames[..j])
      {
        AppendAssociative(prompt, FunctionLines(functionNames[..j]), FunctionLine(functionNames[j]));
        p := p + FunctionLine(functionNames[j]);
        assert functionNames[..j + 1][..j] == functionNames[..j];
        j := j + 1;
      }
      assert functionNames[..j] == functionNames;
    }

    /** The outer loop of generate_prompt: the block of each agent named in
        `names`, in order, each a heading and then that agent's function
        lines. */
    static method AppendBlocks(prompt: string, names: seq<string>, entries: map<string, Agent>) returns (p: string)
      requires forall k | 0 <= k < |names| :: names[k] in entries
      ensures p == prompt + AgentBlocks(names, entries)
    {
      p := prompt;
      var i := 0;
      while i < |names|
        invariant 0 <= i <= |names|
        invariant p == prompt + AgentBlocks(names[..i], entries)
      {
        var agentName := names[i];
        var agent := entries[agentName];
        ghost var blocks := AgentBlocks(names[..i], entries);
        p := p + AgentHeading(agentName, agent);
        p := AppendFunctionLines(p, agent.functions.keys);
        assert names[..i + 1][..i] == names[..i];
        AppendAssociative(prompt + blocks, AgentHeading(agentName, agent), FunctionLines(agent.functions.keys));
        AppendAssociative(prompt, blocks, AgentBlock(agentName, agent));
        i := i + 1;
      }
      assert names[..i] == names;
    }

    /** generate_prompt: the catalogue, built by appending block by block. */
    method GeneratePrompt() returns (prompt: string)
      requires Valid()
      ensures prompt == Catalogue(agents)
    {
      assert forall k | 0 <= k < |agents.keys| :: agents.keys[k] in agents.entries;
      prompt := AppendBlocks(CatalogueHeader, agents.keys, agents.entries);
      prompt := prompt + CatalogueTrailer;
    }
  }
}
