/** Whole sessions: agents built, resumed and put through any operations, with crashes anywhere. */
module AgentSession {
  import opened Contracts
  import opened Transcript
  import opened Trace
  import opened Resume
  import opened AgentInbox
  import opened ToolGroups
  import opened Execution
  import opened Records
  import opened AgentCore

  datatype Operation =
    | Turn(text: string)
    | ContentTurn(blocks: seq<UserBlock>)
    | InboxTurn
    | ResumedTurn
    | Compaction
    | Switch(assembly: Assembly, tools: seq<Tool>, policy: Policy)
    | Parallelism(limit: NonZero)
    | OverflowRetries(retries: nat)
    /** The process dies when `durable` records were, at whatever point of its trace that was;
        another one resumes from them. */
    | Crash(durable: nat, assembly: Assembly, tools: seq<Tool>, policy: Policy)

  /** The operation brings in no other context policy than the summarizing one. */
  predicate Summarizes(operation: Operation) {
    match operation
    case Switch(_, _, policy) => policy.Summarizing?
    case Crash(_, _, _, policy) => policy.Summarizing?
    case _ => true
  }

  /** These tools were assembled, and this bound was set, at some point of the session. */
  ghost predicate Assembled(current: seq<Tool>, limit: nat, tools: seq<Tool>, operations: seq<Operation>) {
    && (current == tools || exists o :: o in operations && (o.Switch? || o.Crash?) && o.tools == current)
    && (limit == 10 || exists o :: o in operations && o.Parallelism? && o.limit == limit)
  }

  /** Each call began as a tool of its name, assembled at that time, describes it. */
  ghost predicate BeganAsAssembled(trace: seq<Event>, tools: seq<Tool>, operations: seq<Operation>) {
    forall k :: 0 <= k < |trace| ==> BeganUnder(trace[k], tools, operations)
  }

  ghost predicate BeganUnder(e: Event, tools: seq<Tool>, operations: seq<Operation>) {
    exists current, limit: nat :: Assembled(current, limit, tools, operations) && BegunAs(e, current, limit)
  }

  lemma AssembledStill(current: seq<Tool>, limit: nat, tools: seq<Tool>, operations: seq<Operation>,
                       more: seq<Operation>)
    requires Assembled(current, limit, tools, operations) && operations <= more
    ensures Assembled(current, limit, tools, more)
  {
    assert forall o :: o in operations ==> o in more;
  }

  /** What an operation added to the trace began under the tools and the bound it found. */
  lemma BeganStill(before: seq<Event>, after: seq<Event>, current: seq<Tool>, limit: nat,
                   tools: seq<Tool>, operations: seq<Operation>, more: seq<Operation>)
    requires BeganAsAssembled(before, tools, operations) && operations <= more
    requires Assembled(current, limit, tools, operations)
    requires BeganSince(before, after, current, limit)
    ensures BeganAsAssembled(after, tools, more)
  {
    hide Assembled, BegunAs;
    AssembledStill(current, limit, tools, operations, more);
    forall k | 0 <= k < |after| ensures BeganUnder(after[k], tools, more) {
      if k < |before| && after[k] == before[k] {
        assert BeganUnder(before[k], tools, operations);
        var c, l: nat :| Assembled(c, l, tools, operations) && BegunAs(before[k], c, l);
        AssembledStill(c, l, tools, operations, more);
      }
    }
  }

  /** Every event is an earlier one, at its place, or began under these tools and this bound. */
  ghost predicate BeganSince(before: seq<Event>, after: seq<Event>, tools: seq<Tool>, limit: nat) {
    forall k :: 0 <= k < |after| ==> (k < |before| && after[k] == before[k]) || BegunAs(after[k], tools, limit)
  }

  /** Any sequence of operations, with every commit free to fail, every token free to fire and
      every policy free to answer: the journal a session leaves is one the laws of `Trace`
      speak of, and the agent's memory is its projection. */
  method Session(assembly: Assembly, tools: seq<Tool>, policy: Policy, operations: seq<Operation>, requests: nat)
    returns (agent: Agent)
    ensures fresh(agent) && agent.AtRest()
    ensures Run(agent.trace) == Some(agent.st) && HonoursCancel(agent.trace)
    ensures Journals(agent.journal, agent.trace)
    ensures agent.history == HistoryOf(BodiesOf(agent.journal))
    ensures agent.inbox.Valid() && agent.inbox.taken == []
    ensures InboxRecords(BodiesOf(agent.journal)) == agent.base + Contents(agent.inbox.delivered)
    ensures (forall o :: o in operations ==> !o.Crash?) ==> agent.base == []
    ensures BeganAsAssembled(agent.trace, tools, operations)
    ensures policy.Summarizing? && (forall o :: o in operations ==> Summarizes(o)) ==>
              forall k :: 0 <= k < |agent.trace| && agent.trace[k].Requested? ==> WellFormed(agent.trace[k].history)
    ensures policy.Summarizing? && (forall o :: o in operations ==> Summarizes(o)) ==> SendsTask(agent.trace)
    ensures policy.Summarizing? && (forall o :: o in operations ==> Summarizes(o)) && NoMarkedInput(agent.journal) ==>
              SendsOneSummary(agent.trace)
    ensures (forall r :: r in agent.journal ==> !r.body.ContextReplaced?) ==>
              forall k :: 0 <= k < |agent.trace| && agent.trace[k].Requested? ==> WellFormed(agent.trace[k].history)
  {
    hide Run, Bodies, Coherent, HonoursCancel, CancelledAt, InboxRecords, Contents, HistoryOf, WellFormed, Assembled,
         BegunAs, Agent.Log, KeepsTask, ShowsTask, NoMarkedInput;
    agent := new Agent(assembly, tools, policy);
    ghost var summarizing := policy.Summarizing? && (forall o :: o in operations ==> Summarizes(o));
    AssembledFirst(tools);
    NoTaskYet();
    var i := 0;
    while i < |operations|
      invariant 0 <= i <= |operations|
      invariant fresh(agent) && fresh(agent.inbox) && agent.AtRest()
      invariant summarizing ==> agent.policy.Summarizing? && agent.st.faithful && KeepsTask(agent.journal)
      invariant (forall o :: o in operations[..i] ==> !o.Crash?) ==> agent.base == []
      invariant Assembled(agent.tools, agent.maxParallel, tools, operations[..i])
      invariant BeganAsAssembled(agent.trace, tools, operations[..i])
    {
      assert operations[i] in operations;
      ghost var trace, current, limit := agent.trace, agent.tools, agent.maxParallel;
      agent := Perform(agent, operations[i], requests);
      assert operations[..i + 1] == operations[..i] + [operations[i]];
      BeganStill(trace, agent.trace, current, limit, tools, operations[..i], operations[..i + 1]);
      AssembledNext(current, limit, agent.tools, agent.maxParallel, tools, operations[..i], operations[i]);
      i := i + 1;
    }
    assert operations[..i] == operations;
    agent.RestFacts();
    HistoryIsProjection(agent.trace);
    if summarizing {
      AllRequestsWellFormed(agent.trace);
      TaskIsAlwaysSent(agent.journal, agent.trace);
      if NoMarkedInput(agent.journal) { OneSummaryIsSent(agent.journal, agent.trace); }
    }
    if forall r :: r in agent.journal ==> !r.body.ContextReplaced? {
      NothingReplaced(agent.journal, agent.trace);
    }
  }

  lemma AssembledFirst(tools: seq<Tool>)
    ensures Assembled(tools, 10, tools, [])
  {
  }

  lemma AssembledNext(before: seq<Tool>, limit: nat, after: seq<Tool>, limit': nat, tools: seq<Tool>,
                      operations: seq<Operation>, o: Operation)
    requires Assembled(before, limit, tools, operations)
    requires after == before || ((o.Switch? || o.Crash?) && after == o.tools)
    requires limit' == limit || limit' == 10 || (o.Parallelism? && limit' == o.limit)
    ensures Assembled(after, limit', tools, operations + [o])
  {
    var more := operations + [o];
    assert more[|operations|] == o;
    assert forall p :: p in operations ==> p in more;
  }

  /** No tool assembled in the session under the call's name lets it overlap others: each says
      it is exclusive, writes or delegates, or only one call may run. */
  ghost predicate NeverShared(call: ToolCall, tools: seq<Tool>, operations: seq<Operation>) {
    forall current, limit: nat :: Assembled(current, limit, tools, operations) ==>
                                    !IsShared(call, Lookup(current, call.name), limit)
  }

  /** In the trace of a session such a call runs alone: of two calls the first has returned, or its
      process has ended, before the second begins. */
  lemma ExclusiveToolsRunAlone(trace: seq<Event>, tools: seq<Tool>, operations: seq<Operation>, a: nat, b: nat)
    requires Run(trace).Some? && BeganAsAssembled(trace, tools, operations)
    requires a < b < |trace| && trace[a].Began? && trace[b].Began?
    requires NeverShared(trace[a].call, tools, operations) || NeverShared(trace[b].call, tools, operations)
    ensures exists c :: a < c < b && Stops(trace[c], trace[a].call.callId)
  {
    hide Run, Assembled, Stops;
    assert BeganUnder(trace[a], tools, operations) && BeganUnder(trace[b], tools, operations);
    ExclusiveCallsRunAlone(trace, a, b);
  }

  method Perform(before: Agent, operation: Operation, requests: nat) returns (agent: Agent)
    requires before.AtRest()
    modifies before, before.inbox
    ensures agent.AtRest() && (agent == before || fresh(agent)) && (agent.inbox == before.inbox || fresh(agent.inbox))
    ensures Summarizes(operation) && old(before.policy).Summarizing? && old(before.st).faithful ==>
              agent.policy.Summarizing? && agent.st.faithful
    ensures old(before.policy).Summarizing? && KeepsTask(old(before.journal)) ==> KeepsTask(agent.journal)
    ensures !operation.Crash? ==> agent.base == old(before.base)
    ensures agent.tools == old(before.tools)
              || ((operation.Switch? || operation.Crash?) && agent.tools == operation.tools)
    ensures agent.maxParallel == old(before.maxParallel) || agent.maxParallel == 10
            || (operation.Parallelism? && agent.maxParallel == operation.limit)
    ensures BeganSince(old(before.trace), agent.trace, old(before.tools), old(before.maxParallel))
  {
    hide Run, Bodies, Coherent, HonoursCancel, CancelledAt, InboxRecords, Contents, HistoryOf, Journals, Agent.Log,
         BegunAs, KeepsTask;
    agent := before;
    match operation {
      case Turn(text) => var end := agent.RunTurn(text, requests);
      case ContentTurn(blocks) => var end := agent.RunContentTurn(blocks, requests);
      case InboxTurn => var ran, end := agent.RunInboxTurn(requests);
      case ResumedTurn => var end := agent.ResumeTurn(requests);
      case Compaction => var answer := agent.Compact();
      case Switch(assembly, tools, policy) => var r := agent.Reconfigure(assembly, tools, policy);
      case Parallelism(limit) => agent.SetMaxParallelTools(limit);
      case OverflowRetries(retries) => agent.SetMaxOverflowRetries(retries);
      case Crash(durable, assembly, tools, policy) =>
        agent := Restart(before, durable, assembly, tools, policy);
    }
  }

  /** `Agent::new`: refused before anything runs, or an agent that has done nothing. */
  method BuildAgent(assembly: Assembly, tools: seq<Tool>, policy: Policy) returns (r: Result<Agent, BuildError>)
    ensures r.Err? && r.error.DuplicateToolName? <==> !DistinctNames(tools)
    ensures r.Ok? ==>
              && fresh(r.value) && fresh(r.value.inbox) && r.value.AtRest() && DistinctNames(r.value.tools)
              && r.value.journal == [] && r.value.history == [] && r.value.trace == [] && r.value.assembly == assembly
  {
    hide DistinctNames, Agent.AtRest;
    var checked := CheckEnvironment(tools);
    if checked.Err? {
      return Err(checked.error);
    }
    var agent := new Agent(assembly, tools, policy);
    return Ok(agent);
  }

  /** `Agent::resume`: the records are projected, the assembly compared with the journalled one, and
      the agent built like any other; nothing is committed. */
  method ResumeAgent(records: seq<JournalRecord>, assembly: Assembly, tools: seq<Tool>, policy: Policy,
                     ghost earlier: seq<Event>)
    returns (r: Result<(Agent, ResumeReport), ResumeRefusal>)
    requires Run(earlier).Some? && HonoursCancel(earlier) && Journals(records, earlier) && |records| <= U64_MAX
    ensures r.Err? && r.error.NoCoreJournal? <==> !IsCoreJournal(records)
    ensures r.Err? && r.error.NotBuilt? && r.error.build.DuplicateToolName? <==>
              IsCoreJournal(records) && !DistinctNames(tools)
    ensures r.Ok? ==>
              var agent, report := r.value.0, r.value.1;
              && fresh(agent) && fresh(agent.inbox) && agent.AtRest() && DistinctNames(agent.tools)
              && agent.journal == records && agent.trace == earlier + [Crashed]
              && agent.history == HistoryOf(BodiesOf(records))
              && agent.st == Run(earlier).value.(running := {}, sent := false)
              && agent.tools == tools && agent.policy == policy && agent.maxParallel == 10 && agent.assembly == assembly
              && agent.base == InboxRecords(BodiesOf(records)) && agent.inbox.delivered == []
              && report.unresolvedCalls == WithStarted(Unresolved(agent.history), StartedSince(BodiesOf(records)))
              && (report.environmentChanged <==>
                  LastAssembly(BodiesOf(records)).Some? && LastAssembly(BodiesOf(records)).value != assembly)
              && (agent.environmentCommitted <==> records != [] && !report.environmentChanged)
  {
    hide Run, Bodies, HonoursCancel, InboxRecords, HistoryOf, IsCoreJournal, Unresolved, StartedSince, LastUsage,
         LastAssembly, WithStarted, IsChanged, Agent.AtRest, Journals, BodiesOf, DistinctNames, Named;
    var projected := Project(records);
    if projected.Err? {
      return Err(NoCoreJournal(projected.error));
    }
    var report := CompareEnvironment(records, assembly, projected.value.unresolvedCalls);
    var checked := CheckEnvironment(tools);
    if checked.Err? {
      return Err(NotBuilt(checked.error));
    }
    var agent := new Agent.Resume(records, assembly, tools, policy, report.environmentChanged, earlier);
    return Ok((agent, report));
  }

  /** Resume from the first `durable` records; when that is refused the session goes on as it was. */
  method Restart(before: Agent, durable: nat, assembly: Assembly, tools: seq<Tool>, policy: Policy)
    returns (agent: Agent)
    requires before.AtRest()
    ensures agent.AtRest() && (agent == before || (fresh(agent) && fresh(agent.inbox)))
    ensures agent != before ==>
              durable <= |before.journal| && agent.journal == before.journal[..durable]
              && (exists n :: 0 <= n <= |before.trace| && agent.trace == before.trace[..n] + [Crashed])
              && agent.policy == policy && (before.st.faithful ==> agent.st.faithful)
              && agent.tools == tools && agent.maxParallel == 10
    ensures BeganSince(before.trace, agent.trace, before.tools, before.maxParallel)
    ensures KeepsTask(before.journal) ==> KeepsTask(agent.journal)
  {
    hide Run, Bodies, Coherent, HonoursCancel, CancelledAt, InboxRecords, Contents, HistoryOf, IsCoreJournal,
         KeepsTask, Unresolved, StartedSince, LastUsage, WithStarted, Agent.Log, Agent.Linked, Agent.AtRest, Step,
         Journals, BodiesOf;
    if durable > |before.journal| || durable > U64_MAX {
      return before;
    }
    var records := before.journal[..durable];
    before.RestFacts();
    if KeepsTask(before.journal) {
      KeepsTaskPrefix(before.journal, durable);
    }
    ghost var n := CrashPoint(before.journal, before.trace, durable);
    if before.st.faithful {
      FaithfulBefore(before.trace, n);
    }
    var resumed := ResumeAgent(records, assembly, tools, policy, before.trace[..n]);
    agent := if resumed.Ok? then resumed.value.0 else before;
  }
}
