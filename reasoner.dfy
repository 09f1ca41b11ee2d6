/** The reasoning loop (reasoning/reasoner.py): a task list that
    interpret_objective extends from a decomposition of the objective,
    execute_first_task pops from the front and dispatches through the agent
    registry, and run drains while assessing each result. The decomposition
    collaborator, the Redis query and json.dumps are parameters. */
module Reasoner {
  import opened Dicts
  import opened Python
  import opened Agents
  import opened SimpleBase
  import opened TemplateBase
  import opened BufferManager

  // The task template of reasoner.py:42-44, cut at its braces, and the
  // longer runs between them cut between phrases; together the pieces are
  // the source's three literals.

  /** Up to the objective's field. */
  const TemplateLead := "Given the objective "
  /** From the field to the example records. */
  const TemplateAsk := ", generate tasks. " + "in following mapped JSON format: "
  /** The first example record, between its braces. */
  const TemplateRecord := "'name': 'task_name', " + "'function': 'function_to_use', " + "'input': 'input_to_add'"
  /** After the first record's closing brace. */
  const TemplateRest := ", " + TemplateSecond
  /** The second example record and the closing escape. */
  const TemplateSecond := "{'name': 'task_name', 'function': 'function_to_use', 'input': 'input_to_add'}}"

  const TaskTemplate := TemplateLead + ("{0}" + (TemplateAsk + ("{{" + (TemplateRecord + ("}" + TemplateRest)))))

  /** No brace in a string. */
  predicate Plain(s: string) {
    '{' !in s && '}' !in s
  }

  lemma LeadPlain()
    ensures Plain(TemplateLead)
  {
  }

  lemma AskPlain()
    ensures Plain(TemplateAsk)
  {
    assert Plain(", generate tasks. ") && Plain("in following mapped JSON format: ");
  }

  lemma RecordPlain()
    ensures Plain(TemplateRecord)
  {
    assert Plain("'name': 'task_name', ") && Plain("'function': 'function_to_use', ");
    assert Plain("'input': 'input_to_add'");
  }

  /** After the field: plain text, an escaped `{`, plain text and a `}`
      that is not followed by another. Formatting it raises at that `}`. */
  lemma {:induction false} TailRaises(ask: string, record: string, rest: string, args: seq<string>)
    requires Plain(ask) && Plain(record)
    requires rest == [] || rest[0] != '}'
    ensures FormatFrom(ask + ("{{" + (record + ("}" + rest))), 0, args, Manual)
            == FormatFailure(ValueError("Single '}' encountered in format string"))
  {
    var err := FormatFailure(ValueError("Single '}' encountered in format string"));
    var close := "}" + rest;
    var recordThen := record + close;
    var escaped := "{{" + recordThen;
    LoneClose(close, 0, args, Manual);
    PlainPrefix(record, close, args, Manual);
    assert FormatFrom(recordThen, 0, args, Manual) == err;
    assert escaped[2..] == recordThen[0..];
    FormatFromShift(escaped, 2, recordThen, 0, args, Manual);
    EscapedOpen(escaped, 0, args, Manual);
    assert FormatFrom(escaped, 0, args, Manual) == err;
    PlainPrefix(ask, escaped, args, Manual);
  }

  /** A template of the task template's shape: plain text, the field `{0}`
      and a tail as in `TailRaises`. Formatting it with at least one
      argument raises at the tail's `}`. */
  lemma {:induction false} TemplateShapeRaises(lead: string, ask: string, record: string, rest: string, args: seq<string>)
    requires Plain(lead) && Plain(ask) && Plain(record)
    requires rest == [] || rest[0] != '}'
    requires |args| > 0
    ensures FormatFrom(lead + ("{0}" + (ask + ("{{" + (record + ("}" + rest))))), 0, args, NoFields)
            == FormatFailure(ValueError("Single '}' encountered in format string"))
  {
    var err := FormatFailure(ValueError("Single '}' encountered in format string"));
    var tail := ask + ("{{" + (record + ("}" + rest)));
    var field := "{0}" + tail;
    TailRaises(ask, record, rest, args);
    assert field[3..] == tail[0..];
    FormatFromShift(field, 3, tail, 0, args, Manual);
    assert field[0] == '{' && field[2] == '}' && field[1..2] == "0";
    assert AllDigits(field[1..2]) && DecimalValue(field[1..2]) == 0;
    PositionalField(field, 0, 2, args, NoFields);
    assert FormatFrom(field, 0, args, NoFields) == err;
    PlainPrefix(lead, field, args, NoFields);
  }

  /** The template puts the objective in `{0}` and escapes the first brace
      of the first example record, but not its closing one: that `}` stands
      alone, so formatting raises `ValueError` whatever the objective. */
  lemma TaskTemplateRaises(objective: string)
    ensures Format(TaskTemplate, [objective]) == FormatFailure(ValueError("Single '}' encountered in format string"))
  {
    LeadPlain();
    AskPlain();
    RecordPlain();
    assert TemplateRest[0] == ',';
    TemplateShapeRaises(TemplateLead, TemplateAsk, TemplateRecord, TemplateRest, [objective]);
  }

  /** The chain interpret_objective builds. */
  function TaskChain(objective: string, preContext: string): TemplateChain {
    TemplateChain(TaskTemplate, [objective], Named("to_json"), Some(preContext))
  }

  /** So the real execute_chain raises on the reasoner's chain, outside its
      `except IndexError`, before any task is produced. */
  lemma TaskChainRaises(objective: string, preContext: string, dumps: PyDict<Value> -> string)
    ensures ExecuteChain(TaskChain(objective, preContext), dumps) ==
              Raised(ValueError("Single '}' encountered in format string"))
  {
    TaskTemplateRaises(objective);
  }

  /** The memory strings of the newest conversations, newest first, at most
      five. */
  function RecentMemories(buffer: seq<Conversation>): (ms: seq<string>)
    ensures |ms| == if |buffer| < 5 then |buffer| else 5
    ensures forall k | 0 <= k < |ms| :: ms[k] == MemoryLine(buffer[|buffer| - 1 - k])
  {
    var n := if |buffer| < 5 then |buffer| else 5;
    seq(n, k requires 0 <= k < n => MemoryLine(buffer[|buffer| - 1 - k]))
  }

  /** The pre-context handed to the decomposition. */
  function PreContext(contexts: seq<string>, redisMemory: string): string {
    "Buffer: " + Join(contexts, " | ") + ", Redis: " + redisMemory
  }

  /** `{"name": ..., "details": ..., "input": ...}` */
  function TaskRecord(name: Value, details: Value, input: Value): (r: Value)
    ensures r.Dict? && r.d.Valid() && r.d.keys == ["name", "details", "input"]
    ensures r.d.entries == map["name" := name, "details" := details, "input" := input]
  {
    var entries := map["name" := name, "details" := details, "input" := input];
    assert "name" != "details" && "name" != "input" && "details" != "input";
    Dict(PyDict(["name", "details", "input"], entries))
  }

  /** A record whose "name" and "details" are both truthy. */
  predicate NamedTask(task: Value)
    requires task.Dict?
  {
    Truthy(GetKey(task.d, "name")) && Truthy(GetKey(task.d, "details"))
  }

  /** The copy interpret_objective pushes for one record: none unless it
      is named. */
  function CopyOf(task: Value): (c: seq<Value>)
    requires task.Dict?
    ensures |c| == if NamedTask(task) then 1 else 0
  {
    if NamedTask(task) then [TaskRecord(GetKey(task.d, "name"), GetKey(task.d, "details"), GetKey(task.d, "input"))]
    else []
  }

  /** The normalised copies pushed for the first `i` records, in order. */
  function Normalised(tasks: seq<Value>, i: nat): (ns: seq<Value>)
    requires i <= |tasks| && forall k | 0 <= k < i :: tasks[k].Dict?
    ensures |ns| <= i
  {
    if i == 0 then [] else Normalised(tasks, i - 1) + CopyOf(tasks[i - 1])
  }

  /** Every copy has exactly the keys name, details and input; none has a
      "function" key. */
  lemma {:induction false} NormalisedShape(tasks: seq<Value>, i: nat)
    requires i <= |tasks| && forall k | 0 <= k < i :: tasks[k].Dict?
    ensures forall k | 0 <= k < |Normalised(tasks, i)| ::
              Normalised(tasks, i)[k].Dict? && Normalised(tasks, i)[k].d.keys == ["name", "details", "input"]
              && "function" !in Normalised(tasks, i)[k].d.entries
  {
    if i > 0 {
      NormalisedShape(tasks, i - 1);
    }
  }

  /** The number of named records among the first `i`. */
  function NamedCount(tasks: seq<Value>, i: nat): (c: nat)
    requires i <= |tasks| && forall k | 0 <= k < i :: tasks[k].Dict?
    ensures c <= i
  {
    if i == 0 then 0 else NamedCount(tasks, i - 1) + if NamedTask(tasks[i - 1]) then 1 else 0
  }

  /** Every named record gets exactly one copy, and no other record does. */
  lemma {:induction false} NormalisedCount(tasks: seq<Value>, i: nat)
    requires i <= |tasks| && forall k | 0 <= k < i :: tasks[k].Dict?
    ensures |Normalised(tasks, i)| == NamedCount(tasks, i)
    ensures (forall k | 0 <= k < i :: NamedTask(tasks[k])) ==> |Normalised(tasks, i)| == i
    ensures (forall k | 0 <= k < i :: !NamedTask(tasks[k])) ==> Normalised(tasks, i) == []
  {
    if i > 0 {
      NormalisedCount(tasks, i - 1);
    }
  }

  /** The first position of `tasks` that is not a dictionary, or `|tasks|`. */
  function FirstNonRecord(tasks: seq<Value>, from: nat): (n: nat)
    requires from <= |tasks|
    ensures from <= n <= |tasks|
    ensures forall k | from <= k < n :: tasks[k].Dict?
    ensures n < |tasks| ==> !tasks[n].Dict?
    decreases |tasks| - from
  {
    if from == |tasks| || !tasks[from].Dict? then from else FirstNonRecord(tasks, from + 1)
  }

  /** `v.get(...)` on a value that is not a dictionary. */
  function NoGet(v: Value): Exception {
    AttributeError("'" + TypeName(v) + "' object has no attribute 'get'")
  }

  /** What the record loop and the final `extend` of interpret_objective
      add to the task list, and how they end. */
  datatype Records = Records(outcome: Outcome<()>, added: seq<Value>)

  function Recorded(tasks: seq<Value>): Records {
    var n := FirstNonRecord(tasks, 0);
    if n < |tasks| then Records(Raised(NoGet(tasks[n])), Normalised(tasks, n))
    else Records(Returned(()), Normalised(tasks, |tasks|) + tasks)
  }

  /** The loop stops at the first task that is not a dictionary, keeping
      the copies already pushed; otherwise the raw records follow their
      normalised copies. Either way the list only grows, by at most twice
      the number of tasks. */
  lemma RecordedCases(tasks: seq<Value>)
    ensures var n := FirstNonRecord(tasks, 0);
            n < |tasks| ==> Recorded(tasks).outcome == Raised(NoGet(tasks[n]))
                            && Recorded(tasks).added == Normalised(tasks, n)
    ensures Recorded(tasks).outcome.Returned? <==> forall k | 0 <= k < |tasks| :: tasks[k].Dict?
    ensures Recorded(tasks).outcome.Returned? ==>
              Recorded(tasks).added[|Recorded(tasks).added| - |tasks|..] == tasks
    ensures Recorded(tasks).outcome.Returned? ==>
              |Recorded(tasks).added| == NamedCount(tasks, |tasks|) + |tasks|
    ensures |Recorded(tasks).added| <= 2 * |tasks|
  {
    if Recorded(tasks).outcome.Returned? {
      NormalisedCount(tasks, |tasks|);
    }
  }

  /** What execute_first_task does with the popped task: read "name",
      "function" and "input", in that order, then call
      `execute_function(task["name"], input_data, **task["function"])`. */
  function TaskResult(registry: PyDict<Agent>, task: Value, inputData: Value): Outcome<Value> {
    if !task.Dict? then
      Raised(TypeError(if task.Str? then "string indices must be integers, not 'str'"
                       else "'" + TypeName(task) + "' object is not subscriptable"))
    else if "name" !in task.d.entries then Raised(KeyError("name"))
    else if "function" !in task.d.entries then Raised(KeyError("function"))
    else if "input" !in task.d.entries then Raised(KeyError("input"))
    else
      var details := task.d.entries["function"];
      if !details.Dict? then
        Raised(TypeError("AgentManager.execute_function() argument after ** must be a mapping, not " + TypeName(details)))
      else Call(registry, PythonCall([task.d.entries["name"], inputData], details.d.entries))
  }

  /** A normalised copy has no "function" key, so executing it raises
      `KeyError`, whatever the registry and input. */
  lemma NormalisedTaskRaises(registry: PyDict<Agent>, name: Value, details: Value, input: Value, inputData: Value)
    ensures TaskResult(registry, TaskRecord(name, details, input), inputData) == Raised(KeyError("function"))
  {
    var task := TaskRecord(name, details, input);
    assert task.Dict? && "name" in task.d.entries && "function" !in task.d.entries;
  }

  /** A task that has all three keys is dispatched with its "name" as the
      agent and `input_data` as the function name; its "function" mapping
      becomes keyword arguments, the capability's input is `None`, and its
      "input" is never used. */
  lemma TaskDispatchArguments(registry: PyDict<Agent>, task: Value, inputData: Value)
    requires task.Dict? && "name" in task.d.entries && "function" in task.d.entries && "input" in task.d.entries
    requires task.d.entries["function"].Dict?
    requires task.d.entries["function"].d.entries.Keys !! {"self", "agent_name", "function_name", "input_data"}
    ensures var kw := task.d.entries["function"].d.entries;
            TaskResult(registry, task, inputData) == Dispatch(registry, task.d.entries["name"], inputData, NoneV, [], kw)
  {
    var kw := task.d.entries["function"].d.entries;
    BindTwoPositional(task.d.entries["name"], inputData, [], kw);
    assert [task.d.entries["name"], inputData] + [] == [task.d.entries["name"], inputData];
  }

  /** With `input_data` left at `None`, as run leaves it, no capability is
      ever reached: the task raises or yields an error record. */
  lemma {:induction false} NoneInputNeverDispatches(registry: PyDict<Agent>, task: Value)
    ensures TaskResult(registry, task, NoneV).Raised? || IsErrorRecord(TaskResult(registry, task, NoneV).value)
  {
    var r := TaskResult(registry, task, NoneV);
    if r.Returned? {
      var kw := task.d.entries["function"].d.entries;
      var call := PythonCall([task.d.entries["name"], NoneV], kw);
      var b := Bind(call).value;
      assert b.functionName == NoneV;
      var name := b.agentName;
      if name.Str? && name.s in registry.entries {
        ErrorRecordIsErrorRecord("Function None not found in " + registry.entries[name.s].name);
      } else {
        ErrorRecordIsErrorRecord("Agent " + Render(name) + " not found");
      }
    }
  }

  /** assess_and_update under its fixed policy: true exactly when the
      result's "success" is truthy; `.get` on a non-dictionary raises. */
  function AssessAndUpdate(result: Value, originalPrompt: string): (r: Outcome<bool>)
    ensures r.Returned? <==> result.Dict?
    ensures r.Returned? ==> (r.value <==> Truthy(GetKey(result.d, "success")))
    ensures !result.Dict? ==> r == Raised(NoGet(result))
  {
    if !result.Dict? then Raised(NoGet(result))
    else Returned(Truthy(GetKey(result.d, "success")))
  }

  /** An error record is never a success. */
  lemma ErrorRecordIsNoSuccess(v: Value, originalPrompt: string)
    requires IsErrorRecord(v)
    ensures AssessAndUpdate(v, originalPrompt) == Returned(false)
  {
    assert "success" !in v.d.entries;
  }

  /** What run does to a task list: the outcome, the assessments made, and
      the tasks left. */
  datatype RunResult = RunResult(outcome: Outcome<()>, assessments: seq<bool>, remaining: seq<Value>)

  /** One iteration of run on a popped task: execute it with
      `input_data=None`, then assess the result. */
  function RunStep(registry: PyDict<Agent>, task: Value, originalPrompt: string): Outcome<bool> {
    match TaskResult(registry, task, NoneV)
    case Raised(e) => Raised(e)
    case Returned(v) => AssessAndUpdate(v, originalPrompt)
  }

  /** No iteration of run ever assesses a success. */
  lemma RunStepNeverSucceeds(registry: PyDict<Agent>, task: Value, originalPrompt: string)
    ensures RunStep(registry, task, originalPrompt).Returned? ==> !RunStep(registry, task, originalPrompt).value
  {
    NoneInputNeverDispatches(registry, task);
    var t := TaskResult(registry, task, NoneV);
    if t.Returned? {
      ErrorRecordIsNoSuccess(t.value, originalPrompt);
    }
  }

  /** The reference behaviour of run: pop and run one step per task, going
      on regardless of the assessment, until the list is empty or a step
      raises. */
  function RunFrom(registry: PyDict<Agent>, tasks: seq<Value>, originalPrompt: string): RunResult
    decreases |tasks|
  {
    if tasks == [] then RunResult(Returned(()), [], [])
    else match RunStep(registry, tasks[0], originalPrompt)
      case Raised(e) => RunResult(Raised(e), [], tasks[1..])
      case Returned(b) =>
        var rest := RunFrom(registry, tasks[1..], originalPrompt);
        RunResult(rest.outcome, [b] + rest.assessments, rest.remaining)
  }

  /** A step that raises ends run with the rest of the list left. */
  lemma RunFromRaises(registry: PyDict<Agent>, tasks: seq<Value>, originalPrompt: string)
    requires tasks != [] && RunStep(registry, tasks[0], originalPrompt).Raised?
    ensures RunFrom(registry, tasks, originalPrompt) ==
              RunResult(Raised(RunStep(registry, tasks[0], originalPrompt).error), [], tasks[1..])
  {
  }

  /** A step that returns records its assessment and run goes on. */
  lemma RunFromContinues(registry: PyDict<Agent>, tasks: seq<Value>, originalPrompt: string)
    requires tasks != [] && RunStep(registry, tasks[0], originalPrompt).Returned?
    ensures var rest := RunFrom(registry, tasks[1..], originalPrompt);
            RunFrom(registry, tasks, originalPrompt) ==
              RunResult(rest.outcome, [RunStep(registry, tasks[0], originalPrompt).value] + rest.assessments, rest.remaining)
  {
  }

  /** run pops once per iteration: when it returns the list is empty and
      every task was assessed; when it raises, the tasks left are a suffix
      and exactly one more task was popped than assessed. */
  lemma {:induction false} RunConsumes(registry: PyDict<Agent>, tasks: seq<Value>, originalPrompt: string)
    ensures var r := RunFrom(registry, tasks, originalPrompt);
            r.outcome.Returned? ==> r.remaining == [] && |r.assessments| == |tasks|
    ensures var r := RunFrom(registry, tasks, originalPrompt);
            r.outcome.Raised? ==> |r.remaining| + |r.assessments| + 1 == |tasks|
                                  && r.remaining == tasks[|tasks| - |r.remaining|..]
    decreases |tasks|
  {
    if tasks != [] && RunStep(registry, tasks[0], originalPrompt).Returned? {
      RunConsumes(registry, tasks[1..], originalPrompt);
      RunFromContinues(registry, tasks, originalPrompt);
      var rest := RunFrom(registry, tasks[1..], originalPrompt);
      if rest.outcome.Raised? {
        assert tasks[1..][|tasks| - 1 - |rest.remaining|..] == tasks[|tasks| - |rest.remaining|..];
      }
    }
  }

  /** Under the fixed assessment policy no task run assesses is a success. */
  lemma {:induction false} RunNeverSucceeds(registry: PyDict<Agent>, tasks: seq<Value>, originalPrompt: string)
    ensures true !in RunFrom(registry, tasks, originalPrompt).assessments
    decreases |tasks|
  {
    if tasks != [] {
      RunStepNeverSucceeds(registry, tasks[0], originalPrompt);
      RunNeverSucceeds(registry, tasks[1..], originalPrompt);
    }
  }

  class Reasoning {
    const agentManager: AgentManager
    /** `memory_manager.buffer` */
    const memoryBuffer: ConversationBuffer
    var taskList: seq<Value>

    /** Reasoning.__init__ */
    constructor(agentManager: AgentManager, memoryBuffer: ConversationBuffer)
      ensures this.agentManager == agentManager && this.memoryBuffer == memoryBuffer
      ensures taskList == []
    {
      this.agentManager := agentManager;
      this.memoryBuffer := memoryBuffer;
      taskList := [];
    }

    /** The context loop of interpret_objective: indices -1 down to -5,
        stopping at the first one with no memory string. */
    method BufferContexts() returns (contexts: seq<string>)
      ensures contexts == RecentMemories(memoryBuffer.buffer)
    {
      var buffer := memoryBuffer.buffer;
      contexts := [];
      var i: int := -1;
      while i > -6
        invariant -6 <= i <= -1
        invariant |contexts| == -1 - i && |contexts| <= |buffer|
        invariant forall k | 0 <= k < |contexts| :: contexts[k] == MemoryLine(buffer[|buffer| - 1 - k])
        decreases i + 6
      {
        var context := memoryBuffer.GetMemory(i);
        if context.Some? && context.value != "" {
          contexts := contexts + [context.value];
        } else {
          break;
        }
        i := i - 1;
      }
    }

    /** interpret_objective. `redis` is what `memory_manager.redis.query`
        returns, as text, or raises; `decompose` is the execute_chain the
        reasoner calls. Records with a truthy "name" and "details" are
        pushed in normalised form, then every raw record is pushed too;
        a task that is not a dictionary stops the loop with the copies
        pushed so far. */
    method InterpretObjective(objective: string, redis: Outcome<string>,
                              decompose: TemplateChain -> Outcome<seq<Value>>) returns (r: Outcome<()>)
      modifies this
      ensures old(taskList) <= taskList
      ensures redis.Raised? ==> r == Raised(redis.error) && taskList == old(taskList)
      ensures redis.Returned? ==>
                var tasks := decompose(TaskChain(objective, PreContext(RecentMemories(memoryBuffer.buffer), redis.value)));
                && (tasks.Raised? ==> r == Raised(tasks.error) && taskList == old(taskList))
                && (tasks.Returned? ==> r == Recorded(tasks.value).outcome
                                        && taskList == old(taskList) + Recorded(tasks.value).added)
    {
      var contexts := BufferContexts();
      var bufferMemory := Join(contexts, " | ");
      if redis.Raised? {
        return Raised(redis.error);
      }
      var preContext := "Buffer: " + bufferMemory + ", Redis: " + redis.value;
      var taskChain := TemplateChain(TaskTemplate, [objective], memory := Some(preContext));
      assert taskChain == TaskChain(objective, PreContext(RecentMemories(memoryBuffer.buffer), redis.value));
      var outcome := decompose(taskChain);
      if outcome.Raised? {
        return Raised(outcome.error);
      }
      r := RecordTasks(outcome.value);
    }

    /** The record loop and the final `extend` of interpret_objective. */
    method RecordTasks(tasks: seq<Value>) returns (r: Outcome<()>)
      modifies this
      ensures r == Recorded(tasks).outcome && taskList == old(taskList) + Recorded(tasks).added
    {
      ghost var n := FirstNonRecord(tasks, 0);
      ghost var start := taskList;
      var i := 0;
      while i < |tasks|
        invariant 0 <= i <= n
        invariant taskList == start + Normalised(tasks, i)
      {
        var task := tasks[i];
        if !task.Dict? {
          assert i == n;
          return Raised(NoGet(task));
        }
        var taskName := GetKey(task.d, "name");
        var taskDetails := GetKey(task.d, "details");
        var taskInput := GetKey(task.d, "input");
        ghost var pushed := Normalised(tasks, i);
        if Truthy(taskName) && Truthy(taskDetails) {
          var record := TaskRecord(taskName, taskDetails, taskInput);
          assert Normalised(tasks, i + 1) == pushed + [record];
          assert (start + pushed) + [record] == start + (pushed + [record]);
          taskList := taskList + [record];
        } else {
          assert Normalised(tasks, i + 1) == pushed + [];
        }
        i := i + 1;
      }
      assert (start + Normalised(tasks, i)) + tasks == start + (Normalised(tasks, i) + tasks);
      taskList := taskList + tasks;
      return Returned(());
    }

    /** execute_first_task: the front task is popped before any of its keys
        is read. */
    method ExecuteFirstTask(inputData: Value) returns (r: Outcome<Value>)
      modifies this
      ensures old(taskList) == [] ==> r == Returned(Str("No tasks available")) && taskList == []
      ensures old(taskList) != [] ==>
                taskList == old(taskList)[1..] && r == TaskResult(agentManager.agents, old(taskList)[0], inputData)
    {
      if taskList == [] {
        return Returned(Str("No tasks available"));
      }
      var firstTask := taskList[0];
      taskList := taskList[1..];
      r := TaskResult(agentManager.agents, firstTask, inputData);
    }

    /** run: drain the task list, assessing every result. */
    method Run(originalPrompt: string) returns (r: Outcome<()>, assessments: seq<bool>)
      modifies this
      ensures RunResult(r, assessments, taskList) == RunFrom(agentManager.agents, old(taskList), originalPrompt)
    {
      assessments := [];
      while taskList != []
        invariant var rest := RunFrom(agentManager.agents, taskList, originalPrompt);
                  RunFrom(agentManager.agents, old(taskList), originalPrompt) ==
                    RunResult(rest.outcome, assessments + rest.assessments, rest.remaining)
        decreases |taskList|
      {
        ghost var before := taskList;
        ghost var agents := agentManager.agents;
        var result := ExecuteFirstTask(NoneV);
        if result.Raised? {
          RunFromRaises(agents, before, originalPrompt);
          return Raised(result.error), assessments;
        }
        var assessment := AssessAndUpdate(result.value, originalPrompt);
        if assessment.Raised? {
          RunFromRaises(agents, before, originalPrompt);
          return Raised(assessment.error), assessments;
        }
        assert RunStep(agents, before[0], originalPrompt) == assessment;
        RunFromContinues(agents, before, originalPrompt);
        ghost var rest := RunFrom(agents, taskList, originalPrompt);
        assert assessments + ([assessment.value] + rest.assessments) == (assessments + [assessment.value]) + rest.assessments;
        assessments := assessments + [assessment.value];
      }
      r := Returned(());
    }
  }
}
