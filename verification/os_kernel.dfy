/** The kernel of the agent runtime: the permission gate that decides which
    tools a role may call, and the memory manager that keeps the latest
    short context per agent and archives a lossy summary of long ones. */
module OsKernel {

  import opened Common

  // ---------------------------------------------------------------------
  // Permission gate
  // ---------------------------------------------------------------------

  /** The role-based access table: role -> tools it may call.  The table is
      built once and never changed afterwards, so the engine is a value. */
  datatype PermissionEngine = PermissionEngine(policy: map<string, seq<string>>)
  {
    /** The tools listed for `role`; an unknown role gets the empty list. */
    function AllowedTools(role: string): seq<string>
    {
      if role in policy then policy[role] else []
    }

    /** A role may use a tool exactly when the tool is listed for it. */
    function VerifyAction(role: string, tool: string): (allowed: bool)
      ensures allowed <==> role in policy && tool in policy[role]
    {
      tool in AllowedTools(role)
    }
  }

  /** The engine with the fixed table every orchestrator starts with. */
  function NewPermissionEngine(): (engine: PermissionEngine)
    ensures engine.policy.Keys == {"research_agent", "finance_agent", "junior_agent"}
    // Every known role may use at least one tool, and no role may use more than two.
    ensures forall role | role in engine.policy :: 1 <= |engine.policy[role]| <= 2
  {
    PermissionEngine(map[
      "research_agent" := ["search_web", "read_email"],
      "finance_agent" := ["read_email", "execute_payment"],
      "junior_agent" := ["search_web"]
    ])
  }

  /** The (role, tool) pairs the fixed table grants, as an independent list. */
  const Grants: set<(string, string)> := {
    ("research_agent", "search_web"), ("research_agent", "read_email"),
    ("finance_agent", "read_email"), ("finance_agent", "execute_payment"),
    ("junior_agent", "search_web")
  }

  /** The fixed table grants exactly the pairs in `Grants`. */
  lemma DefaultPolicyGrants(role: string, tool: string)
    ensures NewPermissionEngine().VerifyAction(role, tool) <==> (role, tool) in Grants
  {
  }

  /** Any role outside the table is denied every tool. */
  lemma UnknownRoleDenied(engine: PermissionEngine, role: string, tool: string)
    requires role !in engine.policy
    ensures !engine.VerifyAction(role, tool)
  {
  }

  /** The junior role can never be authorised to pay, and the research role
      is authorised for exactly web search and reading e-mail. */
  lemma DefaultPolicyRoles(tool: string)
    ensures !NewPermissionEngine().VerifyAction("junior_agent", "execute_payment")
    ensures NewPermissionEngine().VerifyAction("research_agent", tool) <==>
              tool == "search_web" || tool == "read_email"
  {
    DefaultPolicyGrants("junior_agent", "execute_payment");
    DefaultPolicyGrants("research_agent", tool);
  }

  // ---------------------------------------------------------------------
  // Memory manager
  // ---------------------------------------------------------------------

  /** Content longer than this many characters is archived, not kept. */
  const Threshold: nat := 4000
  /** How many leading characters of archived content the summary keeps. */
  const SummaryKeeps: nat := 50

  const SavedAck: string := "Saved to active RAM."
  const ArchivedAck: string := "Context compressed and archived."
  const SummaryHead: string := "Summary of: "
  const SummaryTail: string := "..."

  /** One entry of the long-term list: `{"id": ..., "memory": ...}`. */
  datatype ArchiveRecord = ArchiveRecord(id: string, memory: string)

  /** The memory manager's state as a value: the per-agent cache and the
      long-term list. */
  datatype Memory = Memory(shortTerm: map<string, string>, longTerm: seq<ArchiveRecord>)

  /** What one call of `save_context` leaves behind and answers. */
  datatype SaveResult = SaveResult(memory: Memory, ack: string)

  /** The lossy summary of archived content: a fixed head, at most the first
      fifty characters of the content, and a fixed tail. */
  function Summary(content: string): (summary: string)
    ensures |summary| == |SummaryHead| + (if |content| <= SummaryKeeps then |content| else SummaryKeeps) + |SummaryTail|
    ensures SummaryHead <= summary
    ensures summary[|summary| - |SummaryTail|..] == SummaryTail
    // What lies between head and tail is the start of the content.
    ensures summary[|SummaryHead|..|summary| - |SummaryTail|] <= content
  {
    SummaryHead + Prefix(content, SummaryKeeps) + SummaryTail
  }

  /** One call of `save_context(agentId, content)` on memory `m`. */
  function Save(m: Memory, agentId: string, content: string): (r: SaveResult)
    // The answer tells which branch was taken.
    ensures r.ack == SavedAck <==> |content| <= Threshold
    ensures r.ack == SavedAck || r.ack == ArchivedAck
    // Short content becomes the agent's cached value; nothing is archived.
    ensures |content| <= Threshold ==>
              agentId in r.memory.shortTerm && r.memory.shortTerm[agentId] == content
              && r.memory.longTerm == m.longTerm
    // Long content leaves the cache alone and archives exactly one summary.
    ensures |content| > Threshold ==>
              r.memory.shortTerm == m.shortTerm
              && r.memory.longTerm == m.longTerm + [ArchiveRecord(agentId, Summary(content))]
    // Other agents' cached values are never touched.
    ensures forall other :: other != agentId ==>
              (other in r.memory.shortTerm <==> other in m.shortTerm)
              && (other in m.shortTerm ==> r.memory.shortTerm[other] == m.shortTerm[other])
    // The agent's own cache entry can only appear or change, never vanish.
    ensures agentId in m.shortTerm ==> agentId in r.memory.shortTerm
  {
    if |content| > Threshold then
      SaveResult(Memory(m.shortTerm, m.longTerm + [ArchiveRecord(agentId, Summary(content))]), ArchivedAck)
    else
      SaveResult(Memory(m.shortTerm[agentId := content], m.longTerm), SavedAck)
  }

  /** Archiving forgets everything after the first fifty characters: two long
      contents that agree there leave identical memories behind. */
  lemma ArchiveIsLossy(m: Memory, agentId: string, c1: string, c2: string)
    requires |c1| > Threshold && |c2| > Threshold
    requires c1[..SummaryKeeps] == c2[..SummaryKeeps]
    ensures Save(m, agentId, c1) == Save(m, agentId, c2)
  {
  }

  /** A run of successive `save_context` calls, each given as (agent, content). */
  function SaveAll(m: Memory, saves: seq<(string, string)>): Memory
    decreases |saves|
  {
    if saves == [] then m
    else SaveAll(Save(m, saves[0].0, saves[0].1).memory, saves[1..])
  }

  /** How many of the given calls carry content over the threshold. */
  function LongSaves(saves: seq<(string, string)>): nat
    decreases |saves|
  {
    if saves == [] then 0
    else (if |saves[0].1| > Threshold then 1 else 0) + LongSaves(saves[1..])
  }

  /** The long-term list is append-only: after any sequence of saves every
      earlier record keeps its position and value, and exactly one record
      has been added per long content. */
  lemma {:induction false} LongTermAppendOnly(m: Memory, saves: seq<(string, string)>)
    ensures m.longTerm <= SaveAll(m, saves).longTerm
    ensures |SaveAll(m, saves).longTerm| == |m.longTerm| + LongSaves(saves)
    decreases |saves|
  {
    if saves != [] {
      var next := Save(m, saves[0].0, saves[0].1).memory;
      LongTermAppendOnly(next, saves[1..]);
    }
  }

  /** An agent none of the saves names keeps its cached value. */
  lemma {:induction false} ShortTermOfOthersKept(m: Memory, saves: seq<(string, string)>, agent: string)
    requires forall i :: 0 <= i < |saves| ==> saves[i].0 != agent
    ensures agent in SaveAll(m, saves).shortTerm <==> agent in m.shortTerm
    ensures agent in m.shortTerm ==> SaveAll(m, saves).shortTerm[agent] == m.shortTerm[agent]
    decreases |saves|
  {
    if saves != [] {
      var next := Save(m, saves[0].0, saves[0].1).memory;
      ShortTermOfOthersKept(next, saves[1..], agent);
    }
  }

  /** The memory manager object: a dictionary updated in place and a list
      appended to in place. */
  class MemoryManager {
    var shortTerm: map<string, string>
    var longTerm: seq<ArchiveRecord>

    constructor ()
      ensures shortTerm == map[] && longTerm == []
    {
      shortTerm := map[];
      longTerm := [];
    }

    /** The current state as a value. */
    function Snapshot(): Memory
      reads this
    {
      Memory(shortTerm, longTerm)
    }

    /** `save_context`: overwrite the agent's cache entry with short content,
        or append a summary of long content to the long-term list. */
    method SaveContext(agentId: string, content: string) returns (ack: string)
      modifies this
      ensures SaveResult(Snapshot(), ack) == Save(old(Snapshot()), agentId, content)
      ensures old(longTerm) <= longTerm
    {
      if |content| > Threshold {
        longTerm := longTerm + [ArchiveRecord(agentId, Summary(content))];
        return ArchivedAck;
      }
      shortTerm := shortTerm[agentId := content];
      return SavedAck;
    }
  }
}
