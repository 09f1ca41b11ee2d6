/** A polling assignment (agents/async_manager.py): a fixed request to one
    agent function, repeated until a condition on its result holds, after
    which an action fires once and the assignment stops for good. The
    successive dispatch results are a finite script, which is what makes the
    loop terminate here; the source loop polls for as long as the condition
    fails. */
module Assignments {
  import opened Dicts
  import opened Python
  import opened Agents

  /** How a call of `start` ends. `Stopped`: the loop guard found `running`
      false. `Failed`: the dispatch, the condition or the action raised, and
      the exception leaves `start`. `ScriptExhausted`: the scripted results
      ran out while the assignment was still running. */
  datatype PollOutcome = Stopped | Failed(error: Exception) | ScriptExhausted

  /** The observable effects of one call of `start`: how many dispatches it
      made, the values handed to the condition (in order), how many times
      the action ran, and how it ended. */
  datatype PollRun = PollRun(calls: nat, checked: seq<Value>, actionRuns: nat, outcome: PollOutcome)

  /** Iteration `k` of the loop neither raises nor satisfies the condition. */
  predicate Quiet(results: seq<Outcome<Value>>, condition: Value -> Outcome<bool>, k: nat)
    requires k < |results|
  {
    results[k].Returned? && condition(results[k].value) == Returned(false)
  }

  /** The first iteration, from `from` on, that ends the loop: the dispatch
      or the condition raises, or the condition holds. `|results|` when
      there is none. */
  function StopIndex(results: seq<Outcome<Value>>, condition: Value -> Outcome<bool>, from: nat): (n: nat)
    requires from <= |results|
    ensures from <= n <= |results|
    ensures forall k | from <= k < n :: Quiet(results, condition, k)
    ensures n < |results| ==> !Quiet(results, condition, n)
    decreases |results| - from
  {
    if from == |results| || !Quiet(results, condition, from) then from
    else StopIndex(results, condition, from + 1)
  }

  /** The values of the results that returned, in order: what the
      condition is called with, error records included. */
  function Checked(results: seq<Outcome<Value>>): (vs: seq<Value>)
    ensures |vs| <= |results|
    ensures (forall k | 0 <= k < |results| :: results[k].Returned?) ==>
              |vs| == |results| && forall k | 0 <= k < |results| :: vs[k] == results[k].value
  {
    if results == [] then []
    else
      var init := Checked(results[..|results| - 1]);
      match results[|results| - 1]
      case Returned(v) => init + [v]
      case Raised(_) => init
  }

  /** The reference behaviour of `start`, stated through the first
      stopping iteration rather than step by step. */
  function Poll(running: bool, results: seq<Outcome<Value>>, condition: Value -> Outcome<bool>,
                action: Outcome<Value>): (r: PollRun)
  {
    if !running then PollRun(0, [], 0, Stopped)
    else
      var n := StopIndex(results, condition, 0);
      if n == |results| then PollRun(n, Checked(results), 0, ScriptExhausted)
      else match results[n]
        case Raised(e) => PollRun(n + 1, Checked(results[..n + 1]), 0, Failed(e))
        case Returned(v) =>
          match condition(v)
          case Raised(e) => PollRun(n + 1, Checked(results[..n + 1]), 0, Failed(e))
          case Returned(_) =>
            PollRun(n + 1, Checked(results[..n + 1]), 1, if action.Raised? then Failed(action.error) else Stopped)
  }

  /** What one call of `start` does: never more dispatches than scripted
      results, the condition sees exactly the results that returned, the
      action runs at most once, and only on a result the condition accepts,
      as the last thing checked. */
  lemma PollEffects(running: bool, results: seq<Outcome<Value>>, condition: Value -> Outcome<bool>, action: Outcome<Value>)
    ensures Poll(running, results, condition, action).calls <= |results|
    ensures Poll(running, results, condition, action).actionRuns <= 1
    ensures var r := Poll(running, results, condition, action);
            r.checked == Checked(results[..r.calls])
    ensures var r := Poll(running, results, condition, action);
            r.actionRuns == 1 ==> r.checked != [] && condition(r.checked[|r.checked| - 1]) == Returned(true)
    ensures var r := Poll(running, results, condition, action);
            r.outcome == Stopped ==> !running || (r.actionRuns == 1 && action.Returned?)
  {
    var r := Poll(running, results, condition, action);
    if running {
      var n := StopIndex(results, condition, 0);
      if n == |results| {
        assert results[..n] == results;
      } else if results[n].Returned? && condition(results[n].value).Returned? {
        var v := results[n].value;
        assert !Quiet(results, condition, n);
        assert condition(v).value;
        assert results[..n + 1][..n] == results[..n];
        assert Checked(results[..n + 1]) == Checked(results[..n]) + [v];
      }
    }
  }

  /** When the results before position `j` are quiet and the one at `j`
      satisfies the condition, `start` makes exactly `j + 1` dispatches and
      runs the action once; it stops unless the action raises. */
  lemma FirstMatchStops(results: seq<Outcome<Value>>, condition: Value -> Outcome<bool>, action: Outcome<Value>, j: nat)
    requires j < |results|
    requires forall k | 0 <= k < j :: Quiet(results, condition, k)
    requires results[j].Returned? && condition(results[j].value) == Returned(true)
    ensures Poll(true, results, condition, action).calls == j + 1
    ensures Poll(true, results, condition, action).actionRuns == 1
    ensures Poll(true, results, condition, action).outcome == (if action.Raised? then Failed(action.error) else Stopped)
  {
    assert !Quiet(results, condition, j);
  }

  /** A stopped assignment polls nothing: no dispatch, no condition, no
      action. */
  lemma NotRunningDoesNothing(results: seq<Outcome<Value>>, condition: Value -> Outcome<bool>, action: Outcome<Value>)
    ensures Poll(false, results, condition, action) == PollRun(0, [], 0, Stopped)
  {
  }

  /** Dispatch results are handed to the condition as they are: an error
      record returned by the first dispatch is the first value checked. */
  lemma {:induction false} ErrorRecordIsChecked(results: seq<Outcome<Value>>, condition: Value -> Outcome<bool>,
                                                action: Outcome<Value>, message: string)
    requires results != [] && results[0] == Returned(ErrorRecord(message))
    ensures var r := Poll(true, results, condition, action);
            r.checked != [] && r.checked[0] == ErrorRecord(message)
  {
    var r := Poll(true, results, condition, action);
    PollEffects(true, results, condition, action);
    assert r.calls >= 1;
    CheckedPrefix(results, r.calls);
  }

  lemma {:induction false} CheckedPrefix(results: seq<Outcome<Value>>, m: nat)
    requires 1 <= m <= |results| && results[0].Returned?
    ensures Checked(results[..m]) != [] && Checked(results[..m])[0] == results[0].value
  {
    var s := results[..m];
    if m == 1 {
      assert s[..0] == [];
    } else {
      assert s[..m - 1] == results[..m - 1];
      CheckedPrefix(results, m - 1);
    }
  }

  /** Against a capability whose answer never changes, polling either stops
      at the first dispatch or goes on until the script runs out. */
  lemma {:induction false} ConstantResultPoll(r: Outcome<Value>, n: nat, condition: Value -> Outcome<bool>, action: Outcome<Value>)
    requires n > 0
    ensures var results := seq(n, _ => r);
            Poll(true, results, condition, action).calls == (if Quiet(results, condition, 0) then n else 1)
  {
    var results := seq(n, _ => r);
    if Quiet(results, condition, 0) {
      assert forall k | 0 <= k < n :: Quiet(results, condition, k) by {
        forall k | 0 <= k < n ensures Quiet(results, condition, k) {
          assert results[k] == results[0];
        }
      }
    }
  }

  /** Assignment: a standing request `execute_function(agent_name,
      function_name, *args, **kwargs)` and the flag that keeps it polling. */
  class Assignment {
    const name: string
    const description: string
    const agentManager: AgentManager
    const agentName: string
    const functionName: string
    const expectedInputType: string
    const args: seq<Value>
    const kwargs: map<string, Value>
    var running: bool

    /** Assignment.__init__: stores its arguments and starts out running.
        Python's binding has already kept every named parameter out of
        `**kwargs`. */
    constructor(name: string, description: string, agentManager: AgentManager, agentName: string,
                functionName: string, expectedInputType: string := "JSON",
                args: seq<Value> := [], kwargs: map<string, Value> := map[])
      requires kwargs.Keys !! {"self", "name", "description", "agent_manager", "agent_name", "function_name", "expected_input_type"}
      ensures running
      ensures this.name == name && this.description == description && this.agentManager == agentManager
      ensures this.agentName == agentName && this.functionName == functionName
      ensures this.expectedInputType == expectedInputType && this.args == args && this.kwargs == kwargs
    {
      this.name := name;
      this.description := description;
      this.agentManager := agentManager;
      this.agentName := agentName;
      this.functionName := functionName;
      this.expectedInputType := expectedInputType;
      this.args := args;
      this.kwargs := kwargs;
      running := true;
    }

    /** The call every iteration makes. */
    function Request(): PythonCall {
      PythonCall([Str(agentName), Str(functionName)] + args, kwargs)
    }

    /** The request reaches the stored agent and function; the first stored
        positional argument becomes `input_data` and the others `*args`. */
    lemma RequestBinding()
      requires kwargs.Keys !! {"self", "agent_name", "function_name", "input_data"}
      ensures Bind(Request()) ==
                Returned(BoundCall(Str(agentName), Str(functionName), if |args| > 0 then args[0] else NoneV,
                                   if |args| > 0 then args[1..] else [], kwargs))
    {
      BindTwoPositional(Str(agentName), Str(functionName), args, kwargs);
    }

    /** A stored `input_data` keyword: with no stored positional arguments
        it becomes `input_data`; with any, Python finds two values for it. */
    lemma RequestBindingInputKeyword()
      requires kwargs.Keys !! {"self", "agent_name", "function_name"} && "input_data" in kwargs
      ensures |args| == 0 ==>
                Bind(Request()) == Returned(BoundCall(Str(agentName), Str(functionName), kwargs["input_data"], [],
                                                      kwargs - {"input_data"}))
      ensures |args| > 0 ==>
                Bind(Request()) == Raised(TypeError("execute_function() got multiple values for an argument"))
    {
      assert |Request().positional| == 2 + |args|;
      if |args| == 0 {
        assert kwargs - {"agent_name", "function_name", "input_data"} == kwargs - {"input_data"};
      }
    }

    /** Assignment.start without the sleep. `results[k]` is what the `k`-th
        dispatch of `Request()` returns or raises; `condition` and `action`
        are the caller's callables. Returns the effects and the requests
        made, one per dispatch. */
    method Start(results: seq<Outcome<Value>>, condition: Value -> Outcome<bool>, action: Outcome<Value>)
      returns (run: PollRun, requests: seq<PythonCall>)
      modifies this
      ensures run == Poll(old(running), results, condition, action)
      ensures |requests| == run.calls && forall k | 0 <= k < |requests| :: requests[k] == Request()
      ensures running == !run.outcome.Stopped?
    {
      ghost var wasRunning := running;
      var i := 0;
      var checked: seq<Value> := [];
      var actionRuns := 0;
      requests := [];
      while running
        invariant 0 <= i <= |results|
        invariant |requests| == i && forall k | 0 <= k < i :: requests[k] == Request()
        invariant checked == Checked(results[..i])
        invariant running ==> wasRunning && actionRuns == 0 && i <= StopIndex(results, condition, 0)
        invariant !running ==> (!wasRunning && i == 0 && actionRuns == 0)
                               || (wasRunning && actionRuns == 1 && i == StopIndex(results, condition, 0) + 1 && action.Returned?
                                   && results[i - 1].Returned? && condition(results[i - 1].value) == Returned(true))
        decreases |results| - i, running
      {
        if i == |results| {
          run := PollRun(i, checked, actionRuns, ScriptExhausted);
          assert results[..i] == results;
          return;
        }
        var result := results[i];
        requests := requests + [Request()];
        assert results[..i + 1][..i] == results[..i];
        i := i + 1;
        checked := if result.Returned? then checked + [result.value] else checked;
        assert !Quiet(results, condition, i - 1) ==> i - 1 == StopIndex(results, condition, 0);
        if result.Raised? {
          run := PollRun(i, checked, actionRuns, Failed(result.error));
          return;
        }
        var holds := condition(result.value);
        if holds.Raised? {
          run := PollRun(i, checked, actionRuns, Failed(holds.error));
          return;
        }
        if holds.value {
          actionRuns := actionRuns + 1;
          if action.Raised? {
            run := PollRun(i, checked, actionRuns, Failed(action.error));
            return;
          }
          running := false;
        }
      }
      run := PollRun(i, checked, actionRuns, Stopped);
    }

    /** generate_async_prompt: five parts joined with no separator. */
    function GenerateAsyncPrompt(): (prompt: string)
      ensures prompt ==
                ("You also have access to these special agents " + agentName + " that can complete the assignment '"
                 + name + "' available:\n")
                + ("1. Name: " + name) + ("   Description: " + description)
                + ("   Function: " + functionName + " (Expected Input: " + expectedInputType + ")\n")
                + "What would you like to do?"
    {
      var parts := [
        "You also have access to these special agents " + agentName + " that can complete the assignment '" + name
          + "' available:\n",
        "1. Name: " + name,
        "   Description: " + description,
        "   Function: " + functionName + " (Expected Input: " + expectedInputType + ")\n",
        "What would you like to do?"];
      JoinEmptySeparator(parts);
      assert parts[..1][..0] == [] && parts[..2][..1] == parts[..1];
      assert parts[..3][..2] == parts[..2] && parts[..4][..3] == parts[..3] && parts[..5] == parts;
      assert Concat(parts[..1]) == parts[0];
      assert Concat(parts[..2]) == parts[0] + parts[1];
      assert Concat(parts[..3]) == parts[0] + parts[1] + parts[2];
      assert Concat(parts[..4]) == parts[0] + parts[1] + parts[2] + parts[3];
      Join(parts, "")
    }
  }
}
