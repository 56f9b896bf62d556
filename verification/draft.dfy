/** The earlier, deterministic draft of the orchestrator: the same graph,
    but the worker's decision is fixed to web search, it fails on the first
    attempt and succeeds afterwards, its health check looks only for
    "ERROR", and recovery has no ceiling.  Also the telemetry lookup. */
module Draft {

  import opened Common
  import opened OsKernel
  import opened Workflow

  /** The action the draft worker always takes in place of a model call. */
  const MockedAction: string := "search_web"
  const ApiTimeout: string := "ERROR: API Timeout"
  const FoundData: string := "Success: Found data"
  const DraftDenied: string := "Error: Permission Denied"
  const BackoffNotice: string := "System Note: Retrying with backoff strategy..."
  const NoActiveMemory: string := "No active memory"

  /** The draft worker: for a role allowed to search, the first attempt
      times out and every later one finds data; other roles are denied. */
  function DraftWorker(engine: PermissionEngine, s: AgentState): (u: StateUpdate)
    ensures u.currentAgent.None? && u.errorCount.None?
    ensures engine.VerifyAction(s.currentAgent, MockedAction) && s.errorCount == 0 ==>
              u.messages == Some([ApiTimeout])
    ensures engine.VerifyAction(s.currentAgent, MockedAction) && s.errorCount != 0 ==>
              u.messages == Some([FoundData])
    ensures !engine.VerifyAction(s.currentAgent, MockedAction) ==> u.messages == Some([DraftDenied])
  {
    if engine.VerifyAction(s.currentAgent, MockedAction) then
      if s.errorCount == 0 then StateUpdate(Some([ApiTimeout]), None, None)
      else StateUpdate(Some([FoundData]), None, None)
    else StateUpdate(Some([DraftDenied]), None, None)
  }

  /** The draft health check: indexing the last message of an empty
      transcript raises (None); otherwise the step failed exactly when the
      last message contains the case-sensitive marker "ERROR". */
  function DraftCheckHealth(s: AgentState): (h: Option<Health>)
    ensures h.None? <==> s.messages == []
    ensures s.messages != [] ==>
              (h == Some(Error) <==> Occurs("ERROR", s.messages[|s.messages| - 1]))
  {
    if s.messages == [] then None
    else if Contains(s.messages[|s.messages| - 1], "ERROR") then Some(Error)
    else Some(Ok)
  }

  /** The draft recovery: always one more retry, with no ceiling. */
  function DraftRecovery(s: AgentState): (u: StateUpdate)
    ensures ApplyUpdate(s, u) == s.(messages := [BackoffNotice], errorCount := s.errorCount + 1)
  {
    StateUpdate(Some([BackoffNotice]), None, Some(s.errorCount + 1))
  }

  /** The three fixed messages the draft worker posts, classified. */
  lemma DraftMessagesClassified()
    ensures Occurs("ERROR", ApiTimeout)
    ensures !Occurs("ERROR", FoundData)
    ensures !Occurs("ERROR", DraftDenied)
  {
    SpelledAt("ERROR", ApiTimeout, 0);
    forall j | 0 <= j < |FoundData| ensures FoundData[j] != 'R' { }
    MissingCharacter("ERROR", FoundData, 1);
    forall j | 0 <= j < |DraftDenied| ensures DraftDenied[j] != 'R' { }
    MissingCharacter("ERROR", DraftDenied, 1);
  }

  /** A point of a draft run: the node about to execute and the state. */
  datatype Point = Point(node: NodeName, state: AgentState)

  /** Execute the node of `p` and follow the edge out of it. */
  function DraftStep(engine: PermissionEngine, p: Point): (r: Point)
    requires p.node != End
    ensures r.node != Supervisor
    // Only the supervisor and the retry handler touch the counter: the one
    // resets it, the other raises it by one.
    ensures p.node == Supervisor ==> r.node == Worker && r.state.errorCount == 0
    ensures p.node == Worker ==> r.state.errorCount == p.state.errorCount && |r.state.messages| == 1
    ensures p.node == RetryHandler ==> r.node == Worker && r.state.errorCount == p.state.errorCount + 1
    // The run ends only after a worker message without "ERROR".
    ensures r.node == End <==> p.node == Worker && !Occurs("ERROR", r.state.messages[0])
  {
    match p.node
    case Supervisor => Point(Next(Supervisor, Ok), ApplyUpdate(p.state, SupervisorNode(p.state)))
    case Worker =>
      var s := ApplyUpdate(p.state, DraftWorker(engine, p.state));
      Point(Next(Worker, DraftCheckHealth(s).value), s)
    case RetryHandler => Point(Next(RetryHandler, Ok), ApplyUpdate(p.state, DraftRecovery(p.state)))
  }

  /** The nodes a draft run visits in at most `fuel` steps, with the point
      it stops at. */
  function DraftRun(engine: PermissionEngine, p: Point, fuel: nat): (r: (seq<NodeName>, Point))
    // The trace starts at `p`, ends at the point the run stops at, visits
    // at most `fuel + 1` nodes, and is cut short only by END.
    ensures 1 <= |r.0| <= fuel + 1
    ensures r.0[0] == p.node && r.0[|r.0| - 1] == r.1.node
    ensures r.1.node == End || |r.0| == fuel + 1
    // END occurs in the trace only as its last node.
    ensures forall i :: 0 <= i < |r.0| - 1 ==> r.0[i] != End
    decreases fuel
  {
    if fuel == 0 || p.node == End then ([p.node], p)
    else
      var rest := DraftRun(engine, DraftStep(engine, p), fuel - 1);
      ([p.node] + rest.0, rest.1)
  }

  /** A denial is not classified as a failure by the draft health check, so
      a worker whose role may not search ends the run at once. */
  lemma DraftDenialEndsRun(engine: PermissionEngine, s: AgentState)
    requires !engine.VerifyAction(s.currentAgent, MockedAction)
    ensures DraftStep(engine, Point(Worker, s)) == Point(End, s.(messages := [DraftDenied]))
  {
    DraftMessagesClassified();
  }

  /** The supervisor hands the run to the worker as the research role with
      the counter at 0. */
  lemma EntryStep(s: AgentState)
    ensures DraftStep(NewPermissionEngine(), Point(Supervisor, s)) ==
              Point(Worker, s.(currentAgent := ResearchAgent, errorCount := 0))
  {
  }

  /** The first research attempt times out and goes to the retry handler. */
  lemma FirstAttemptStep(messages: seq<string>)
    ensures DraftStep(NewPermissionEngine(), Point(Worker, AgentState(messages, ResearchAgent, 0))) ==
              Point(RetryHandler, AgentState([ApiTimeout], ResearchAgent, 0))
  {
    DefaultPolicyRoles(MockedAction);
    DraftMessagesClassified();
  }

  /** The second research attempt finds data and ends the run. */
  lemma SecondAttemptStep(messages: seq<string>)
    ensures DraftStep(NewPermissionEngine(), Point(Worker, AgentState(messages, ResearchAgent, 1))) ==
              Point(End, AgentState([FoundData], ResearchAgent, 1))
  {
    DefaultPolicyRoles(MockedAction);
    DraftMessagesClassified();
  }

  /** After the timeout the run retries once and ends with the data. */
  lemma TraceAfterTimeout(fuel: nat)
    requires fuel >= 2
    ensures DraftRun(NewPermissionEngine(), Point(RetryHandler, AgentState([ApiTimeout], ResearchAgent, 0)), fuel) ==
              ([RetryHandler, Worker, End], Point(End, AgentState([FoundData], ResearchAgent, 1)))
  {
    var engine := NewPermissionEngine();
    var p2 := Point(RetryHandler, AgentState([ApiTimeout], ResearchAgent, 0));
    var p3 := Point(Worker, AgentState([BackoffNotice], ResearchAgent, 1));
    var p4 := Point(End, AgentState([FoundData], ResearchAgent, 1));
    assert DraftRun(engine, p3, fuel - 1) == ([Worker, End], p4) by {
      SecondAttemptStep([BackoffNotice]);
      assert DraftRun(engine, p4, fuel - 2) == ([End], p4);
      DraftRunUnfold(engine, [], p3, fuel - 1);
      assert [Worker] + [End] == [Worker, End];
    }
    assert DraftStep(engine, p2) == p3;
    DraftRunUnfold(engine, [], p2, fuel);
    assert [RetryHandler] + [Worker, End] == [RetryHandler, Worker, End];
  }

  /** Whatever state the caller starts with, the draft run goes supervisor,
      worker (timeout), retry handler, worker (success), END: exactly one
      recovery, ending with the counter at 1 and the success message. */
  lemma DraftRunTrace(s: AgentState, fuel: nat)
    requires fuel >= 4
    ensures DraftRun(NewPermissionEngine(), Point(Supervisor, s), fuel) ==
              ([Supervisor, Worker, RetryHandler, Worker, End],
               Point(End, AgentState([FoundData], ResearchAgent, 1)))
  {
    var engine := NewPermissionEngine();
    var p1 := Point(Worker, s.(currentAgent := ResearchAgent, errorCount := 0));
    var last := Point(End, AgentState([FoundData], ResearchAgent, 1));
    assert DraftRun(engine, p1, fuel - 1) == ([Worker, RetryHandler, Worker, End], last) by {
      FirstAttemptStep(s.messages);
      TraceAfterTimeout(fuel - 2);
      DraftRunUnfold(engine, [], p1, fuel - 1);
      assert [Worker] + [RetryHandler, Worker, End] == [Worker, RetryHandler, Worker, End];
    }
    EntryStep(s);
    DraftRunUnfold(engine, [], Point(Supervisor, s), fuel);
    assert [Supervisor] + [Worker, RetryHandler, Worker, End]
        == [Supervisor, Worker, RetryHandler, Worker, End];
  }

  /** One step of a draft run, with the nodes visited so far in front. */
  lemma DraftRunUnfold(engine: PermissionEngine, visited: seq<NodeName>, p: Point, fuel: nat)
    requires fuel > 0 && p.node != End
    ensures var rest := DraftRun(engine, DraftStep(engine, p), fuel - 1);
            DraftRun(engine, p, fuel) == ([p.node] + rest.0, rest.1)
            && visited + DraftRun(engine, p, fuel).0 == (visited + [p.node]) + rest.0
  {
  }

  /** The draft driver: apply the transition from `start` until END or
      until `maxSteps` nodes have run, recording the nodes visited. */
  method RunDraft(engine: PermissionEngine, start: Point, maxSteps: nat) returns (trace: seq<NodeName>, final: Point)
    ensures (trace, final) == DraftRun(engine, start, maxSteps)
  {
    var p := start;
    var steps := 0;
    trace := [];
    assert trace + DraftRun(engine, p, maxSteps).0 == DraftRun(engine, p, maxSteps).0;
    while steps < maxSteps && p.node != End
      invariant 0 <= steps <= maxSteps
      invariant trace + DraftRun(engine, p, maxSteps - steps).0 == DraftRun(engine, start, maxSteps).0
      invariant DraftRun(engine, p, maxSteps - steps).1 == DraftRun(engine, start, maxSteps).1
      decreases maxSteps - steps
    {
      DraftRunUnfold(engine, trace, p, maxSteps - steps);
      trace := trace + [p.node];
      p := DraftStep(engine, p);
      steps := steps + 1;
    }
    trace := trace + [p.node];
    final := p;
  }

  /** The telemetry lookup: the agent's cached value, or a fixed notice when
      the agent has none. */
  function LastKnownMemory(m: Memory, agentId: string): (memory: string)
    ensures agentId in m.shortTerm ==> memory == m.shortTerm[agentId]
    ensures agentId !in m.shortTerm ==> memory == NoActiveMemory
  {
    if agentId in m.shortTerm then m.shortTerm[agentId] else NoActiveMemory
  }

  /** What telemetry reports after a save: the saved content for the saving
      agent when it was short, and otherwise what it reported before. */
  lemma TelemetryAfterSave(m: Memory, saver: string, content: string, agentId: string)
    ensures LastKnownMemory(Save(m, saver, content).memory, agentId) ==
              if agentId == saver && |content| <= Threshold then content else LastKnownMemory(m, agentId)
  {
  }

  /** An agent that never saved short content reports the notice. */
  lemma {:induction false} TelemetryOfSilentAgent(saves: seq<(string, string)>, agentId: string)
    requires forall i :: 0 <= i < |saves| ==> saves[i].0 != agentId || |saves[i].1| > Threshold
    ensures LastKnownMemory(SaveAll(Memory(map[], []), saves), agentId) == NoActiveMemory
  {
    SilentAgentUncached(Memory(map[], []), saves, agentId);
  }

  /** Saves by other agents, or of long content, never create a cache entry. */
  lemma {:induction false} SilentAgentUncached(m: Memory, saves: seq<(string, string)>, agentId: string)
    requires agentId !in m.shortTerm
    requires forall i :: 0 <= i < |saves| ==> saves[i].0 != agentId || |saves[i].1| > Threshold
    ensures agentId !in SaveAll(m, saves).shortTerm
    decreases |saves|
  {
    if saves != [] {
      SilentAgentUncached(Save(m, saves[0].0, saves[0].1).memory, saves[1..], agentId);
    }
  }
}
