/** The orchestrator's workflow graph as an explicit state machine:
    supervisor -> worker, worker -> END or retry_handler as the health check
    decides, retry_handler -> worker.  The language model and the tools are
    oracles; every node returns an update that replaces the fields it names. */
module Workflow {

  import opened Common
  import opened OsKernel

  // ---------------------------------------------------------------------
  // State, updates and the graph
  // ---------------------------------------------------------------------

  datatype NodeName = Supervisor | Worker | RetryHandler | End

  /** The graph state: transcript, active role, and recovery counter. */
  datatype AgentState = AgentState(messages: seq<string>, currentAgent: string, errorCount: int)

  /** What a node returns: the fields it sets. */
  datatype StateUpdate = StateUpdate(
    messages: Option<seq<string>>,
    currentAgent: Option<string>,
    errorCount: Option<int>)

  /** Merging an update into the state.  No field has a reducer, so a field
      named by the update is replaced outright, the transcript included. */
  function ApplyUpdate(s: AgentState, u: StateUpdate): (r: AgentState)
    // A named transcript replaces the old one outright; nothing is appended.
    ensures u.messages.Some? ==> r.messages == u.messages.value
    ensures u.currentAgent.Some? ==> r.currentAgent == u.currentAgent.value
    ensures u.errorCount.Some? ==> r.errorCount == u.errorCount.value
    // Fields the update does not name keep their values.
    ensures u.messages.None? ==> r.messages == s.messages
    ensures u.currentAgent.None? ==> r.currentAgent == s.currentAgent
    ensures u.errorCount.None? ==> r.errorCount == s.errorCount
  {
    AgentState(
      if u.messages.Some? then u.messages.value else s.messages,
      if u.currentAgent.Some? then u.currentAgent.value else s.currentAgent,
      if u.errorCount.Some? then u.errorCount.value else s.errorCount)
  }

  /** The two labels the health check returns. */
  datatype Health = Ok | Error

  /** The edges of the graph.  END has no outgoing edge.  The supervisor is
      only the entry point, the only way out of the graph is a healthy
      worker step, and the retry handler always leads back to the worker. */
  function Next(from: NodeName, health: Health): (to: NodeName)
    requires from != End
    ensures to != Supervisor
    ensures to == End <==> from == Worker && health == Ok
    ensures from == Worker && health == Error ==> to == RetryHandler
    ensures from != Worker ==> to == Worker
  {
    match from
    case Supervisor => Worker
    case Worker => if health == Ok then End else RetryHandler
    case RetryHandler => Worker
  }

  // ---------------------------------------------------------------------
  // Supervisor, health check and recovery
  // ---------------------------------------------------------------------

  const ResearchAgent: string := "research_agent"
  /** The recovery ceiling. */
  const MaxRetries: int := 3
  const CriticalFailure: string := "CRITICAL FAILURE: Max retries exceeded. Shutting down agent."
  const RetryNotice: string := "System Note: Retrying operation..."

  /** The supervisor hands every task to the research role and restarts the
      recovery counter, whatever state it is given. */
  function SupervisorNode(s: AgentState): (u: StateUpdate)
    ensures ApplyUpdate(s, u) == s.(currentAgent := ResearchAgent, errorCount := 0)
  {
    StateUpdate(None, Some(ResearchAgent), Some(0))
  }

  /** The health check: an empty transcript is healthy; otherwise the step
      failed exactly when the last message mentions "ERROR" or "Exception". */
  function CheckHealth(s: AgentState): (h: Health)
    ensures s.messages == [] ==> h == Ok
    ensures s.messages != [] ==>
              (h == Error <==> Occurs("ERROR", s.messages[|s.messages| - 1])
                               || Occurs("Exception", s.messages[|s.messages| - 1]))
  {
    if s.messages == [] then Ok
    else
      var last := s.messages[|s.messages| - 1];
      if Contains(last, "ERROR") || Contains(last, "Exception") then Error else Ok
  }

  /** The recovery node: below the ceiling it counts one more retry and
      posts a retry notice; at or above the ceiling it only posts the
      critical-failure message and leaves the counter alone. */
  function RecoveryNode(s: AgentState): (u: StateUpdate)
    ensures s.errorCount >= MaxRetries ==>
              ApplyUpdate(s, u) == s.(messages := [CriticalFailure])
    ensures s.errorCount < MaxRetries ==>
              ApplyUpdate(s, u) == s.(messages := [RetryNotice], errorCount := s.errorCount + 1)
  {
    if s.errorCount >= MaxRetries then StateUpdate(Some([CriticalFailure]), None, None)
    else StateUpdate(Some([RetryNotice]), None, Some(s.errorCount + 1))
  }

  // ---------------------------------------------------------------------
  // Worker: language model and tools as oracles
  // ---------------------------------------------------------------------

  /** What the language model call produces: a plain text reply, the first
      requested tool call, or the text of the exception it raised. */
  datatype LlmReply = TextReply(content: string) | ToolCall(name: string, args: map<string, string>) | LlmFailure(error: string)

  /** What a tool produces: its result as text, or the text of its exception. */
  datatype ToolRun = Returned(result: string) | Raised(error: string)

  /** The two external collaborators.  Both are indexed by the number of the
      worker call so that a retry with the same input may get a different
      answer.  `llm(role, task, k)` answers the k-th worker call;
      `tools(name, arguments, k)` runs a tool during the k-th worker call. */
  datatype Oracles = Oracles(
    llm: (string, string, nat) -> LlmReply,
    tools: (string, seq<string>, nat) -> ToolRun)

  /** The registry of executable tools. */
  const AvailableTools: set<string> := {"read_email", "execute_python"}

  /** The task handed to the model when the transcript is empty. */
  const DefaultTask: string := "Check my emails"
  const PermissionDenied: string := "SECURITY ERROR: Permission Denied for this agent."

  /** The worker reads its task from the last message of the transcript. */
  function UserTask(s: AgentState): (task: string)
    ensures s.messages != [] ==> task == s.messages[|s.messages| - 1]
    ensures s.messages == [] ==> task == DefaultTask
  {
    if s.messages == [] then DefaultTask else s.messages[|s.messages| - 1]
  }

  /** The positional arguments a tool is called with: the code to run for
      the Python tool (empty when absent), none for the others. */
  function ToolArguments(name: string, args: map<string, string>): (arguments: seq<string>)
    ensures name == "execute_python" && "code" in args ==> arguments == [args["code"]]
    ensures name == "execute_python" && "code" !in args ==> arguments == [""]
    ensures name != "execute_python" ==> arguments == []
  {
    if name == "execute_python" then [if "code" in args then args["code"] else ""] else []
  }

  function LlmFailureMessage(error: string): string { "ERROR: LLM invocation failed - " + error }
  function ToolMissingMessage(name: string): string { "ERROR: Tool " + name + " not found in available_tools" }
  function ToolFailureMessage(error: string): string { "ERROR: Tool execution failed - " + error }
  function SuccessMessage(result: string): string { "SUCCESS: " + result }

  /** The outcome of one worker step: the message it posts, the tool it ran
      (if any) and the content it saved to memory (if any). */
  datatype WorkerOutcome = WorkerOutcome(message: string, invoked: Option<string>, saved: Option<string>)

  /** Think, check, act: what the k-th worker call does for `role` on `task`. */
  function Work(engine: PermissionEngine, oracles: Oracles, role: string, task: string, k: nat): (w: WorkerOutcome)
    // A tool runs only when the role is authorised for it and it is registered.
    ensures w.invoked.Some? ==>
              engine.VerifyAction(role, w.invoked.value) && w.invoked.value in AvailableTools
    // Memory is written only after a tool ran and returned, with its result.
    ensures w.saved.Some? ==> w.invoked.Some? && w.message == SuccessMessage(w.saved.value)
    // A requested tool the role may not use yields the denial message.
    ensures oracles.llm(role, task, k).ToolCall? &&
            !engine.VerifyAction(role, oracles.llm(role, task, k).name) ==>
              w == WorkerOutcome(PermissionDenied, None, None)
    // An authorised tool that is not registered is reported as not found.
    ensures oracles.llm(role, task, k).ToolCall? &&
            engine.VerifyAction(role, oracles.llm(role, task, k).name) &&
            oracles.llm(role, task, k).name !in AvailableTools ==>
              w == WorkerOutcome(ToolMissingMessage(oracles.llm(role, task, k).name), None, None)
    // An authorised, registered tool runs; its result is saved and reported
    // as a success, its exception is reported as a tool failure.
    ensures var reply := oracles.llm(role, task, k);
            reply.ToolCall? && engine.VerifyAction(role, reply.name) && reply.name in AvailableTools ==>
              match oracles.tools(reply.name, ToolArguments(reply.name, reply.args), k)
              case Returned(r) => w == WorkerOutcome(SuccessMessage(r), Some(reply.name), Some(r))
              case Raised(e) => w == WorkerOutcome(ToolFailureMessage(e), Some(reply.name), None)
    // A failed model call is reported; a plain text reply is posted verbatim.
    ensures oracles.llm(role, task, k).LlmFailure? ==>
              w == WorkerOutcome(LlmFailureMessage(oracles.llm(role, task, k).error), None, None)
    ensures oracles.llm(role, task, k).TextReply? ==>
              w == WorkerOutcome(oracles.llm(role, task, k).content, None, None)
  {
    match oracles.llm(role, task, k)
    case LlmFailure(e) => WorkerOutcome(LlmFailureMessage(e), None, None)
    case TextReply(c) => WorkerOutcome(c, None, None)
    case ToolCall(name, args) =>
      if !engine.VerifyAction(role, name) then WorkerOutcome(PermissionDenied, None, None)
      else if name !in AvailableTools then WorkerOutcome(ToolMissingMessage(name), None, None)
      else
        match oracles.tools(name, ToolArguments(name, args), k)
        case Raised(e) => WorkerOutcome(ToolFailureMessage(e), Some(name), None)
        case Returned(r) => WorkerOutcome(SuccessMessage(r), Some(name), Some(r))
  }

  /** Every error message the worker itself produces carries the "ERROR"
      marker. */
  lemma DenialMarked()
    ensures Occurs("ERROR", PermissionDenied)
  {
    SpelledAt("ERROR", PermissionDenied, 9);
  }

  lemma LlmFailureMarked(error: string)
    ensures Occurs("ERROR", LlmFailureMessage(error))
  {
    SpelledAt("ERROR", LlmFailureMessage(error), 0);
  }

  lemma ToolMissingMarked(name: string)
    ensures Occurs("ERROR", ToolMissingMessage(name))
  {
    SpelledAt("ERROR", ToolMissingMessage(name), 0);
  }

  lemma ToolFailureMarked(error: string)
    ensures Occurs("ERROR", ToolFailureMessage(error))
  {
    SpelledAt("ERROR", ToolFailureMessage(error), 0);
  }

  /** So the health check classifies each of them as a failure, for
      instance a permission denial. */
  lemma WorkerErrorsAreFailures(s: AgentState, name: string, error: string)
    requires s.messages != []
    requires var last := s.messages[|s.messages| - 1];
             last in {PermissionDenied, LlmFailureMessage(error), ToolMissingMessage(name), ToolFailureMessage(error)}
    ensures CheckHealth(s) == Error
  {
    DenialMarked();
    LlmFailureMarked(error);
    ToolMissingMarked(name);
    ToolFailureMarked(error);
  }

  /** The research role, the only one the supervisor assigns, can complete a
      tool call only through e-mail reading: web search is authorised but
      not registered, and the Python tool is not authorised. */
  lemma ResearchAgentToolUse(oracles: Oracles, task: string, k: nat)
    ensures var w := Work(NewPermissionEngine(), oracles, ResearchAgent, task, k);
            w.invoked.Some? ==> w.invoked.value == "read_email"
    ensures var reply := oracles.llm(ResearchAgent, task, k);
            reply.ToolCall? && reply.name == "search_web" ==>
              Work(NewPermissionEngine(), oracles, ResearchAgent, task, k).message == ToolMissingMessage("search_web")
  {
    DefaultPolicyRoles("read_email");
    DefaultPolicyRoles("search_web");
    var reply := oracles.llm(ResearchAgent, task, k);
    if reply.ToolCall? {
      DefaultPolicyRoles(reply.name);
    }
  }

  // ---------------------------------------------------------------------
  // The run as a function of the oracles
  // ---------------------------------------------------------------------

  /** A point in a run: the node about to execute, the graph state, the
      memory manager's state and how many worker calls have been made. */
  datatype Config = Config(node: NodeName, state: AgentState, memory: Memory, calls: nat)

  /** The memory after the worker saved (or did not save) its result. */
  function Remember(m: Memory, role: string, w: WorkerOutcome): Memory
  {
    if w.saved.Some? then Save(m, role, w.saved.value).memory else m
  }

  /** Execute the node of `c` and follow the edge out of it. */
  function Step(engine: PermissionEngine, oracles: Oracles, c: Config): (r: Config)
    requires c.node != End
    // Only the worker calls the model, writes memory and posts a message of
    // its own; the archive never shrinks.
    ensures r.calls == if c.node == Worker then c.calls + 1 else c.calls
    ensures c.node != Worker ==> r.memory == c.memory
    ensures c.memory.longTerm <= r.memory.longTerm
    ensures c.node == Worker ==> |r.state.messages| == 1
    // The run ends only after a worker step the health check accepts.
    ensures r.node == End <==> c.node == Worker && CheckHealth(r.state) == Ok
    ensures r.node != Supervisor
  {
    match c.node
    case Supervisor =>
      Config(Next(Supervisor, Ok), ApplyUpdate(c.state, SupervisorNode(c.state)), c.memory, c.calls)
    case Worker =>
      var role := c.state.currentAgent;
      var w := Work(engine, oracles, role, UserTask(c.state), c.calls);
      var s := ApplyUpdate(c.state, StateUpdate(Some([w.message]), None, None));
      Config(Next(Worker, CheckHealth(s)), s, Remember(c.memory, role, w), c.calls + 1)
    case RetryHandler =>
      Config(Next(RetryHandler, Ok), ApplyUpdate(c.state, RecoveryNode(c.state)), c.memory, c.calls)
  }

  /** Run at most `fuel` node executions, stopping early at END. */
  function Run(engine: PermissionEngine, oracles: Oracles, c: Config, fuel: nat): (r: Config)
    // END is final.
    ensures c.node == End ==> r == c
    // Worker calls are counted, and the archive only grows along a run.
    ensures c.calls <= r.calls <= c.calls + fuel
    ensures c.memory.longTerm <= r.memory.longTerm
    decreases fuel
  {
    if fuel == 0 || c.node == End then c else Run(engine, oracles, Step(engine, oracles, c), fuel - 1)
  }

  /** Where every job starts: the supervisor, with the caller's state. */
  function Entry(s: AgentState, m: Memory): Config
  {
    Config(Supervisor, s, m, 0)
  }

  /** The recovery counter never exceeds the ceiling: the supervisor sets it
      to 0 and recovery raises it only while it is below 3. */
  lemma {:induction false} ErrorCountWithinCeiling(engine: PermissionEngine, oracles: Oracles, c: Config, fuel: nat)
    requires c.node == Supervisor || 0 <= c.state.errorCount <= MaxRetries
    ensures var r := Run(engine, oracles, c, fuel);
            r.node == Supervisor || 0 <= r.state.errorCount <= MaxRetries
    decreases fuel
  {
    if fuel > 0 && c.node != End {
      ErrorCountWithinCeiling(engine, oracles, Step(engine, oracles, c), fuel - 1);
    }
  }

  /** At the ceiling the retry handler still sends the run back to the
      worker: the critical-failure message does not end the run. */
  lemma CeilingDoesNotStop(engine: PermissionEngine, oracles: Oracles, c: Config)
    requires c.node == RetryHandler && c.state.errorCount >= MaxRetries
    ensures Step(engine, oracles, c) ==
              c.(node := Worker, state := c.state.(messages := [CriticalFailure]))
  {
  }

  /** A model that always fails. */
  ghost predicate AlwaysFails(oracles: Oracles)
  {
    forall role, task, k :: oracles.llm(role, task, k).LlmFailure?
  }

  /** Termination is not guaranteed: when the model always fails, no number
      of steps brings the run to END; it cycles between worker and retry
      handler for ever. */
  lemma {:induction false} FailingRunNeverEnds(engine: PermissionEngine, oracles: Oracles, c: Config, fuel: nat)
    requires AlwaysFails(oracles)
    requires c.node != End
    ensures Run(engine, oracles, c, fuel).node != End
    decreases fuel
  {
    if fuel > 0 {
      if c.node == Worker {
        var role := c.state.currentAgent;
        var reply := oracles.llm(role, UserTask(c.state), c.calls);
        LlmFailureMarked(reply.error);
      }
      FailingRunNeverEnds(engine, oracles, Step(engine, oracles, c), fuel - 1);
    }
  }

  /** Always-failing models exist, so the run from the entry point really
      can go on for ever, with the counter stuck at the ceiling. */
  lemma EndlessRunExists(s: AgentState, m: Memory, fuel: nat)
    ensures var oracles := Oracles((role, task, k) => LlmFailure("timeout"), (name, args, k) => Raised("unused"));
            var r := Run(NewPermissionEngine(), oracles, Entry(s, m), fuel);
            r.node != End && (r.node == Supervisor || r.state.errorCount <= MaxRetries)
  {
    var oracles := Oracles((role, task, k) => LlmFailure("timeout"), (name, args, k) => Raised("unused"));
    FailingRunNeverEnds(NewPermissionEngine(), oracles, Entry(s, m), fuel);
    ErrorCountWithinCeiling(NewPermissionEngine(), oracles, Entry(s, m), fuel);
  }

  /** A worker step whose message carries no failure marker ends the run,
      with that message as the whole transcript. */
  lemma HealthyWorkerStepEnds(engine: PermissionEngine, oracles: Oracles, c: Config)
    requires c.node == Worker
    requires var w := Work(engine, oracles, c.state.currentAgent, UserTask(c.state), c.calls);
             !Occurs("ERROR", w.message) && !Occurs("Exception", w.message)
    ensures var w := Work(engine, oracles, c.state.currentAgent, UserTask(c.state), c.calls);
            var r := Step(engine, oracles, c);
            r.node == End && r.state.messages == [w.message] && r.calls == c.calls + 1
  {
  }

  /** A successful e-mail read: the research role asks for `read_email`,
      the tool returns `result` without a failure marker, the success message
      is posted, the result is saved for the research role and the run ends
      after two steps. */
  lemma ReadEmailRun(oracles: Oracles, s: AgentState, m: Memory, result: string)
    requires oracles.llm(ResearchAgent, UserTask(s), 0).ToolCall?
    requires oracles.llm(ResearchAgent, UserTask(s), 0).name == "read_email"
    requires oracles.tools("read_email", [], 0) == Returned(result)
    requires !Occurs("ERROR", SuccessMessage(result)) && !Occurs("Exception", SuccessMessage(result))
    ensures var r := Run(NewPermissionEngine(), oracles, Entry(s, m), 2);
            r.node == End && r.state.messages == [SuccessMessage(result)]
            && r.memory == Save(m, ResearchAgent, result).memory
  {
    DefaultPolicyRoles("read_email");
    var c1 := Step(NewPermissionEngine(), oracles, Entry(s, m));
    assert UserTask(c1.state) == UserTask(s);
  }

  // ---------------------------------------------------------------------
  // The orchestrator object
  // ---------------------------------------------------------------------

  /** The orchestrator: a permission engine, a memory manager it writes to,
      and a driver that runs the graph. */
  class AgentOrchestrator {
    const permissions: PermissionEngine
    const memory: MemoryManager

    constructor ()
      ensures permissions == NewPermissionEngine()
      ensures fresh(memory) && memory.Snapshot() == Memory(map[], [])
    {
      permissions := NewPermissionEngine();
      memory := new MemoryManager();
    }

    /** The worker node: ask the model, check permission, run the tool and
        save its result before reporting success. */
    method WorkerNode(s: AgentState, oracles: Oracles, k: nat) returns (u: StateUpdate)
      modifies memory
      ensures var w := Work(permissions, oracles, s.currentAgent, UserTask(s), k);
              u == StateUpdate(Some([w.message]), None, None)
              && memory.Snapshot() == Remember(old(memory.Snapshot()), s.currentAgent, w)
    {
      var role := s.currentAgent;
      var task := UserTask(s);
      var reply := oracles.llm(role, task, k);
      match reply
      case LlmFailure(e) =>
        return StateUpdate(Some([LlmFailureMessage(e)]), None, None);
      case TextReply(c) =>
        return StateUpdate(Some([c]), None, None);
      case ToolCall(name, args) =>
        if !permissions.VerifyAction(role, name) {
          return StateUpdate(Some([PermissionDenied]), None, None);
        }
        if name !in AvailableTools {
          return StateUpdate(Some([ToolMissingMessage(name)]), None, None);
        }
        var run := oracles.tools(name, ToolArguments(name, args), k);
        match run
        case Raised(e) =>
          return StateUpdate(Some([ToolFailureMessage(e)]), None, None);
        case Returned(r) =>
          var _ := memory.SaveContext(role, r);
          return StateUpdate(Some([SuccessMessage(r)]), None, None);
    }

    /** The driver: execute nodes from the supervisor until END or until
        `maxSteps` nodes have run.  The result is the run of the graph. */
    method Invoke(initial: AgentState, oracles: Oracles, maxSteps: nat) returns (final: Config)
      modifies memory
      ensures final == Run(permissions, oracles, Entry(initial, old(memory.Snapshot())), maxSteps)
      ensures memory.Snapshot() == final.memory
    {
      var node := Supervisor;
      var state := initial;
      var calls := 0;
      var steps := 0;
      while steps < maxSteps && node != End
        invariant 0 <= steps <= maxSteps
        invariant Run(permissions, oracles, Config(node, state, memory.Snapshot(), calls), maxSteps - steps)
                  == Run(permissions, oracles, Entry(initial, old(memory.Snapshot())), maxSteps)
        decreases maxSteps - steps
      {
        ghost var before := Config(node, state, memory.Snapshot(), calls);
        match node {
          case Supervisor =>
            state := ApplyUpdate(state, SupervisorNode(state));
            node := Next(Supervisor, Ok);
          case Worker =>
            var u := WorkerNode(state, oracles, calls);
            state := ApplyUpdate(state, u);
            calls := calls + 1;
            node := Next(Worker, CheckHealth(state));
          case RetryHandler =>
            state := ApplyUpdate(state, RecoveryNode(state));
            node := Next(RetryHandler, Ok);
        }
        assert Config(node, state, memory.Snapshot(), calls) == Step(permissions, oracles, before);
        steps := steps + 1;
      }
      final := Config(node, state, memory.Snapshot(), calls);
    }
  }
}
