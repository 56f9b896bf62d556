# AgentOS orchestration core in Dafny

A verified model of the orchestration core of a small agent runtime
("AgentOS"). A supervisor hands a task to a worker agent. The worker asks a
language model what to do, passes any tool request through a role-based
permission gate, runs the tool and stores its result in a memory manager. A
health check then decides whether the job ends or goes to a retry handler,
which sends it back to the worker.

The model has four modules:

- `Common` (`common.dfy`): an `Option` type, Python's substring test
  `sub in s` (the ghost predicate `Occurs` and the executable `Contains`),
  and the slice `s[:n]` (`Prefix`).
- `OsKernel` (`os_kernel.dfy`), from `os_kernel.py`.
  - `PermissionEngine` is the role → allowed-tools table with
    `VerifyAction`. The table is built once and never written again, so
    it is a datatype value. `VerifyAction` is a function on that value and
    cannot change the table.
  - `MemoryManager` is a class. Its `shortTerm` map and `longTerm` list are
    updated in place by `SaveContext`. That method is proved against the
    pure function `Save` on a `Memory` snapshot, and the lemmas about
    `Save` and `SaveAll` give the promises that span several saves.
- `Workflow` (`workflow.dfy`), from `tempCodeRunnerFile.py`.
  - It holds the graph state `AgentState`, the updates nodes return
    (`StateUpdate`, merged by `ApplyUpdate`), and the edges (`Next`).
  - It holds the supervisor, health check and recovery nodes as pure
    functions.
  - The worker is `Work`, with the language model and the tool executor
    passed in as `Oracles`.
  - `Step`/`Run` give a run as a function of the oracles.
  - The class `AgentOrchestrator` has the imperative worker node, which
    writes to its `MemoryManager`, and the driver loop `Invoke`.
- `Draft` (`draft.dfy`), from the earlier orchestrator class in `main.py`
  (lines 25-84) and the telemetry lookup at `main.py:91`.
  - The draft nodes are pure functions.
  - `DraftRun` is the run. The method `RunDraft` is the driver loop that
    records the nodes visited.

The language model and the tools are oracles. They are total functions
indexed by the number of the worker call, so a retry may get a different
answer. A run is bounded by a step budget (`fuel`/`maxSteps`) because the
graph's loop does not always terminate. `FailingRunNeverEnds` proves that.

Some behaviour of the code is easy to misread. The model follows the code:

- Reaching the retry ceiling does not end the run. At `error_count >= 3`
  the retry handler posts "...Shutting down agent."
  (tempCodeRunnerFile.py:158), but the unconditional edge at
  tempCodeRunnerFile.py:66 still goes back to the worker.
- An archived summary keeps the first 50 characters of the content. Long
  content does not touch the short-term cache.
- The research role cannot complete a web search. `search_web` is
  authorised for it but is not a registered tool, so it gets the
  "not found" error (`ResearchAgentToolUse`).
- `messages` has no reducer, so every node's update replaces the whole
  transcript.

## Model

| member | source | states |
|---|---|---|
| `OsKernel.PermissionEngine.VerifyAction` | os_kernel.py:19-24 | a role may use a tool exactly when its table entry exists and lists the tool |
| `OsKernel.UnknownRoleDenied` | os_kernel.py:20 | a role missing from the table is denied every tool (the lookup defaults to the empty list) |
| `OsKernel.DefaultPolicyGrants` | os_kernel.py:13-17 | the fixed table grants exactly the five listed (role, tool) pairs |
| `OsKernel.DefaultPolicyRoles` | os_kernel.py:14-16 | the junior role is never authorised to pay; the research role is authorised for exactly web search and e-mail reading |
| `OsKernel.NewPermissionEngine` | os_kernel.py:13-17 | the fixed table knows exactly the research, finance and junior roles, each with one or two tools |
| `OsKernel.Summary` | os_kernel.py:40 | the summary is the fixed head, then the first min(50, length) characters of the content, then the fixed tail |
| `OsKernel.Save` | os_kernel.py:36-45 | content of at most 4000 characters becomes the agent's cached value and the archive is unchanged ("Saved to active RAM."); longer content leaves the cache alone and appends exactly one summary record ("Context compressed and archived."); other agents' entries are untouched |
| `OsKernel.ArchiveIsLossy` | os_kernel.py:39-42 | two long contents that agree on their first 50 characters leave identical memories and answers |
| `OsKernel.LongTermAppendOnly` | os_kernel.py:41 | after any sequence of saves every earlier archive record keeps its position and value, and one record is added per long content |
| `OsKernel.ShortTermOfOthersKept` | os_kernel.py:44 | saves by other agents never add, remove or change an agent's cache entry |
| `OsKernel.MemoryManager.SaveContext` | os_kernel.py:36-45 | the in-place update and its answer are exactly `Save` on the previous state, and the archive only grows |
| `OsKernel.MemoryManager.constructor` | os_kernel.py:31-34 | a new manager has an empty cache and an empty archive |
| `Workflow.ApplyUpdate` | tempCodeRunnerFile.py:13-16 | a field an update names is replaced outright (the transcript included, since no field has a reducer); the other fields keep their values |
| `Workflow.Next` | tempCodeRunnerFile.py:53-66 | the supervisor is only the entry point; the only edge into END is a healthy worker step; an unhealthy worker goes to the retry handler; the supervisor and the retry handler always lead to the worker |
| `Workflow.SupervisorNode` | tempCodeRunnerFile.py:73-76 | whatever the state, the supervisor assigns the research role and resets the counter to 0, leaving the transcript alone |
| `Workflow.CheckHealth` | tempCodeRunnerFile.py:141-151 | an empty transcript is healthy; otherwise the step failed exactly when the last message contains "ERROR" or "Exception" |
| `Workflow.RecoveryNode` | tempCodeRunnerFile.py:153-165 | at or above 3 only the critical-failure message is posted and the counter is unchanged; below 3 the counter rises by exactly 1 and the retry notice is posted |
| `Workflow.UserTask` | tempCodeRunnerFile.py:83-84 | the task is the last message, or "Check my emails" for an empty transcript |
| `Workflow.ToolArguments` | tempCodeRunnerFile.py:118-123 | the Python tool gets its `code` argument, or the empty string when it is absent; other tools get no arguments |
| `Workflow.Work` | tempCodeRunnerFile.py:78-137 | a tool runs only if the role is authorised and the tool is registered; an authorised, registered tool that returns `r` posts "SUCCESS: r" and saves `r`, one that raises posts the tool-failure message and saves nothing; a denied request gets the denial; an authorised but unregistered tool gets the "not found" error; a failed model call posts the model-failure message; a text reply is posted verbatim |
| `Workflow.WorkerErrorsAreFailures` | tempCodeRunnerFile.py:130-149 | the denial, the model-failure, the missing-tool and the tool-failure messages are all classified as failures by the health check |
| `Workflow.ResearchAgentToolUse` | tempCodeRunnerFile.py:112-132 | under the fixed table the research role can complete only `read_email`; a web-search request ends in the "not found" error |
| `Workflow.Step` | tempCodeRunnerFile.py:44-69 | one node execution: only the worker counts a model call and writes memory, and a worker step leaves a one-message transcript; the archive never shrinks; the next node is END exactly after a worker step the health check accepts |
| `Workflow.Run` | tempCodeRunnerFile.py:44-69 | END is final; along a run the worker calls are counted, at most one per step, and the archive only grows |
| `Workflow.ErrorCountWithinCeiling` | tempCodeRunnerFile.py:153-165 | along any run the counter stays between 0 and 3 once the supervisor has run |
| `Workflow.CeilingDoesNotStop` | tempCodeRunnerFile.py:157-158 | at the ceiling the retry handler still hands the run back to the worker, only replacing the transcript |
| `Workflow.FailingRunNeverEnds` | tempCodeRunnerFile.py:57-66 | when the model always fails, no number of steps reaches END |
| `Workflow.EndlessRunExists` | tempCodeRunnerFile.py:53-66 | with a model that always fails, a run from the entry point never ends, and its counter stays within the ceiling |
| `Workflow.HealthyWorkerStepEnds` | tempCodeRunnerFile.py:136-151 | a worker message without a failure marker ends the run, and that message is the whole transcript |
| `Workflow.ReadEmailRun` | tempCodeRunnerFile.py:115-128 | a successful e-mail read ends the run after two steps with the success message, and the result is saved for the research role |
| `Workflow.AgentOrchestrator.constructor` | tempCodeRunnerFile.py:19-24 | a new orchestrator has the fixed permission table and a fresh, empty memory manager |
| `Workflow.AgentOrchestrator.WorkerNode` | tempCodeRunnerFile.py:78-137 | the imperative worker posts the message `Work` computes and leaves the memory manager exactly as `Work`'s save would |
| `Workflow.AgentOrchestrator.Invoke` | tempCodeRunnerFile.py:44-69 | the driver loop ends in the configuration `Run` reaches from the supervisor, and the memory manager holds that configuration's memory |
| `Draft.DraftWorker` | main.py:56-69 | a role allowed to search gets the timeout on its first attempt and the data afterwards; any other role gets the denial |
| `Draft.DraftCheckHealth` | main.py:72-76 | an empty transcript raises; otherwise the step failed exactly when the last message contains the case-sensitive "ERROR" |
| `Draft.DraftRecovery` | main.py:78-84 | the counter rises by exactly 1 and the backoff notice is posted, with no ceiling |
| `Draft.DraftStep` | main.py:37-84 | one draft node execution: the supervisor resets the counter, the retry handler raises it by one and both lead to the worker; the worker keeps the counter and leaves one message; END follows exactly a worker message without "ERROR" |
| `Draft.DraftRun` | main.py:37-47 | the trace starts at the starting node, ends at the stopping point, has at most fuel + 1 nodes, is cut short only by END, and has END only as its last node |
| `Draft.DraftMessagesClassified` | main.py:66-69 | the timeout is a failure; the data message and the capitalised-"Error" denial are not |
| `Draft.DraftDenialEndsRun` | main.py:69-76 | a role that may not search ends the run at once with the denial as its transcript |
| `Draft.EntryStep` | main.py:52-54 | the supervisor step moves to the worker with the research role and the counter at 0 |
| `Draft.FirstAttemptStep` | main.py:65-66 | the first research attempt times out and goes to the retry handler |
| `Draft.SecondAttemptStep` | main.py:67 | a research attempt after a retry finds data and ends the run |
| `Draft.TraceAfterTimeout` | main.py:78-84 | after the timeout the run visits the retry handler, the worker and END, with the counter at 1 |
| `Draft.DraftRunTrace` | main.py:37-47 | from any state the run is supervisor, worker, retry handler, worker, END, ending with the data message and one recovery |
| `Draft.DraftRunUnfold` | main.py:37-47 | a run that has not stopped is its first node followed by the run from the next point |
| `Draft.RunDraft` | main.py:37-49 | the driver loop records exactly the nodes `DraftRun` visits and stops where it stops |
| `Draft.LastKnownMemory` | main.py:91 | the telemetry lookup reports the agent's cached value, or "No active memory" when it has none |
| `Draft.TelemetryAfterSave` | main.py:91 | after a save the lookup reports the saved content for the saving agent when it was short, and otherwise what it reported before |
| `Draft.TelemetryOfSilentAgent` | main.py:91 | an agent that never saved short content reports "No active memory" |
| `Draft.SilentAgentUncached` | main.py:91 | saves by other agents or of long content never create a cache entry for an agent |

## Left out

- The language model call (`ChatOpenAI`, `bind_tools`, `invoke`) is a network call. It is the `llm` oracle. A reply with several tool calls is its first one.
- The tools (`tools.py`: the e2b sandbox, e-mail reading, the wall clock) are the `tools` oracle. Any exception they raise is `Raised`, and `str(result)` is the result string.
- LangGraph's `compile` and its recursion limit are replaced by the explicit drivers `Invoke` and `RunDraft` with a step budget.
- Messages are their content strings. A `HumanMessage` is its `content`. The draft health check's failure on a message object that is not a string is not modelled.
- The state keys are always present, so `state.get("error_count", 0)` is the stored counter.
- The `/chat` and `/telemetry` FastAPI endpoints, `ainvoke`, and the module-level wiring at `main.py:5,15` are left out. That wiring imports an orchestrator from `agent_runtime`, which is not part of this model. The telemetry lookup itself is `LastKnownMemory`, on a snapshot of the memory manager's state.
- The Streamlit UIs (`app.py`, `frontend.py`), `dependencies.py` (SQLite key lookup) and `routers/agents.py` are HTTP and UI transport.
- `print` and `logging` output, including the security alert in `verify_action`, is left out.
- The system prompt text sent to the model is not modelled; the oracle sees the role and the task.
