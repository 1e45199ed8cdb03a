/** The agent core (crates/p1-core/src/lib.rs): how one agent turns inputs into requests, and the
    calls it is answered with into results. The provider, the tools, the authorization and context
    policies, the commit sink, the turn's cancellation token and the other inbox handles answer
    arbitrarily (`*`). */
module AgentCore {
  import opened Contracts
  import opened Transcript
  import opened Trace
  import opened Resume
  import opened AgentInbox
  import opened ToolGroups
  import opened Execution
  import opened Records
  import Engine
  import Compaction

  /** What the context policy's `prepare` answers. */
  datatype ContextAnswer =
    | Unchanged
    | Replace(items: seq<Item>, usage: Option<Usage>)
    | GaveUp
    | PolicyFailed

  /** A context policy: any at all, or the summarizing one with its validated numbers. */
  datatype ContextPolicy =
    | AnyPolicy
    | Summarizing(config: Engine.ContextConfig, caps: Engine.Caps)

  type Policy = p: ContextPolicy | p.Summarizing? ==> p.config.IsValid() witness AnyPolicy

  datatype CompactionAnswer =
    | Replaced(items: seq<Item>, usage: Option<Usage>)
    | NothingToCompact
    | CompactionCancelled
    | CompactionFailed

  /** Why parts cannot become an agent. */
  datatype BuildError =
    | DuplicateToolName(name: string)
    | ProviderRejected

  datatype ResumeRefusal =
    | NoCoreJournal(error: ResumeError)
    | NotBuilt(build: BuildError)

  datatype ReconfigureError =
    | Rejected(build: BuildError)
    | EnvironmentNotCommitted

  /** What a user says to begin a turn. */
  datatype TurnInput = Text(text: string) | Content(blocks: seq<UserBlock>)

  function ItemOf(input: TurnInput): Item {
    match input
    case Text(text) => User(text)
    case Content(blocks) => UserContent(blocks)
  }

  function RecordOf(input: TurnInput): RecordBody {
    match input
    case Text(text) => UserInputRecord(text)
    case Content(blocks) => UserContentRecord(blocks)
  }

  function WrappingNext(index: nat): nat {
    (index + 1) % 0x1_0000_0000
  }

  /** `check_environment`: call names first, then whatever the provider answers. */
  method CheckEnvironment(tools: seq<Tool>) returns (r: Result<(), BuildError>)
    ensures r.Ok? ==> DistinctNames(tools)
    ensures r.Err? && r.error.DuplicateToolName? <==> !DistinctNames(tools)
    ensures r.Err? && r.error.DuplicateToolName? ==>
              exists i, j :: 0 <= i < j < |tools| && tools[i].name == tools[j].name == r.error.name
  {
    hide DistinctNames;
    var duplicate := FirstDuplicate(tools);
    if duplicate.Some? {
      return Err(DuplicateToolName(duplicate.value));
    }
    var accepted: bool := *;
    return if accepted then Ok(()) else Err(ProviderRejected);
  }

  /** What a provider stream ends in. */
  datatype StreamOutcome =
    | Completed(item: AssistantItem, stop: StopReason, usage: Option<Usage>)
    | StreamCancelled(partial: string)
    | StreamFailed(partial: string, error: ProviderError)

  type NonZero = n: nat | n > 0 witness 1

  datatype TurnEnd =
    | TurnCompleted(stop: StopReason)
    | TurnCancelled
    | ProviderFailed(error: ProviderError)
    | CommitFailed
    /** The policy failed, or its replacement did at this call. */
    | ContextFailed(rejected: Option<string>)

  datatype Flow = Continue | End(end: TurnEnd) | Overflow(end: TurnEnd)

  class Agent {
    // The parts that decide control flow; the rest of an assembly is its record.
    var assembly: Assembly
    var tools: seq<Tool>

    var history: seq<Item>
    var nextSeq: nat
    var environmentCommitted: bool
    var startedCalls: set<string>
    /** What the provider last reported a request to have used, for the context policy. */
    var lastUsage: Option<Usage>
    var maxParallel: NonZero
    var maxOverflowRetries: nat
    var policy: Policy
    const inbox: InboxShared

    /** The current turn's token. */
    var cancelled: bool

    /** What the commit sink holds. */
    var journal: seq<JournalRecord>

    ghost var trace: seq<Event>
    ghost var st: State
    /** Inbox records of an earlier process this agent resumed from. */
    ghost var base: seq<(InboxKind, string)>

    /** The records, the trace and the counters belong together; `history` may lag one push. */
    ghost predicate Log()
      reads this, inbox
    {
      && inbox.Valid()
      && Run(trace) == Some(st) && Coherent(st)
      && Journals(journal, trace) && nextSeq == Saturated(|journal|)
      && (environmentCommitted ==> st.environment)
      && HonoursCancel(trace) && cancelled == CancelledAt(trace)
      && InboxRecords(Bodies(trace)) == base + Contents(inbox.delivered)
    }

    ghost predicate Linked()
      reads this, inbox
    {
      Log() && history == st.history && st.running == {} && inbox.taken == []
    }

    /** Between two operations on the agent. */
    ghost predicate AtRest()
      reads this, inbox
    {
      && Linked()
      && (st.accounted ==> forall c :: c in st.pending ==> (c.callId in startedCalls <==> c.callId in st.started))
    }

    /** Inside a turn, while the calls of a response are being run. */
    ghost predicate InTurn()
      reads this, inbox
    {
      Linked() && environmentCommitted && startedCalls == st.started * Ids(st.pending)
    }

    /** Inside a turn, with nothing left to answer. */
    ghost predicate Ready()
      reads this, inbox
    {
      Linked() && environmentCommitted && startedCalls == {} && (st.accounted ==> st.pending == [])
    }

    /** Every call of the last response has its result, and nothing else was recorded as one. */
    ghost predicate Answered()
      reads this
    {
      st.accounted && st.pending == []
    }

    lemma {:induction false} InTurnRests()
      requires InTurn()
      ensures AtRest()
    {
      hide KeepsTask, Log, Coherent;
    }

    lemma RestFacts()
      requires AtRest()
      ensures Run(trace) == Some(st) && HonoursCancel(trace) && Journals(journal, trace) && history == st.history
      ensures inbox.Valid() && inbox.taken == [] && InboxRecords(BodiesOf(journal)) == base + Contents(inbox.delivered)
    {
      hide KeepsTask, Run, Bodies, Coherent, HonoursCancel, CancelledAt, Journals, InboxRecords, Contents;
      BodiesLength(journal, trace);
    }

    lemma InTurnDone()
      requires InTurn() && st.pending == []
      ensures Ready()
    {
      hide KeepsTask, Log, Coherent;
    }

    // ---------------------------------------------------------------- construction

    /** A fresh agent: nothing is committed yet. */
    constructor (assembly: Assembly, tools: seq<Tool>, policy: Policy)
      ensures AtRest() && fresh(inbox) && history == [] && journal == [] && st == INITIAL && trace == []
      ensures this.assembly == assembly && this.tools == tools && this.policy == policy && maxParallel == 10
      ensures base == [] && inbox.delivered == [] && lastUsage == None
    {
      this.assembly, this.tools, this.policy := assembly, tools, policy;
      history, nextSeq, environmentCommitted, startedCalls, lastUsage := [], 0, false, {}, None;
      maxParallel, maxOverflowRetries, cancelled, journal := 10, 1, false, [];
      trace, st, base := [], INITIAL, [];
      inbox := new InboxShared();
      new;
      InitialCoherent();
      EmptyState();
    }

    /** An agent that continues from `records`, the journal an earlier process had
        written when it stopped, at any point of what it was doing (`earlier`). `changed` says
        whether the assembly differs from the journalled one, and so becomes durable first. Nothing
        is committed. */
    constructor Resume(records: seq<JournalRecord>, assembly: Assembly, tools: seq<Tool>, policy: Policy,
                       changed: bool, ghost earlier: seq<Event>)
      requires Run(earlier).Some? && HonoursCancel(earlier)
      requires Journals(records, earlier) && IsCoreJournal(records) && |records| <= U64_MAX
      ensures AtRest() && fresh(inbox) && journal == records && trace == earlier + [Crashed]
      ensures history == HistoryOf(BodiesOf(records))
      ensures st == Run(earlier).value.(running := {}, sent := false)
      ensures this.assembly == assembly && this.tools == tools && this.policy == policy && maxParallel == 10
      ensures base == InboxRecords(BodiesOf(records)) && inbox.delivered == []
      ensures lastUsage == LastUsage(BodiesOf(records)) && (environmentCommitted <==> records != [] && !changed)
    {
      hide KeepsTask, Run, Bodies, HonoursCancel, CancelledAt, Journals, InboxRecords, Contents, HistoryOf,
           Unresolved, StartedSince, LastUsage, IsCoreJournal, Coherent, BegunAs, AlwaysAccounted, MayOverlap,
           KeepsPending, Step, Ids, WithStarted;
      var p := Project(records);
      Stopped(records, earlier);
      this.assembly, this.tools, this.policy := assembly, tools, policy;
      history, nextSeq, environmentCommitted := p.value.history, p.value.nextSeq, p.value.environmentCommitted
        && !changed;
      lastUsage := p.value.lastUsage;
      startedCalls := set u | u in p.value.unresolvedCalls && u.started :: u.call.callId;
      maxParallel, maxOverflowRetries, cancelled, journal := 10, 1, false, records;
      trace, st := earlier + [Crashed], Run(earlier).value.(running := {}, sent := false);
      base := InboxRecords(Bodies(earlier));
      inbox := new InboxShared();
      new;
      NoContents();
      assert base + [] == base;
    }

    /** What an earlier process left behind when it ended. */
    static lemma Stopped(records: seq<JournalRecord>, earlier: seq<Event>)
      requires Run(earlier).Some? && HonoursCancel(earlier) && Journals(records, earlier) && IsCoreJournal(records)
      ensures var s, trace := Run(earlier).value.(running := {}, sent := false), earlier + [Crashed];
              && Run(trace) == Some(s) && Coherent(s) && HonoursCancel(trace) && !CancelledAt(trace)
              && Journals(records, trace) && Bodies(trace) == Bodies(earlier) == BodiesOf(records)
                && |Bodies(trace)| == |records|
              && s.history == HistoryOf(BodiesOf(records)) && (records != [] ==> s.environment)
              && (s.accounted ==>
                    var flagged := set u | u in WithStarted(Unresolved(s.history), StartedSince(BodiesOf(records)))
                          && u.started :: u.call.callId;
                    forall c :: c in s.pending ==> (c.callId in flagged <==> c.callId in s.started))
    {
      hide Run, Bodies, HonoursCancel, CancelledAt, Journals, HistoryOf, Unresolved, StartedSince, IsCoreJournal,
           Coherent, AlwaysAccounted, KeepsPending, Step, Ids, WithStarted, LastUsage;
      ResumeIsExact(records, earlier);
      RunAppend(earlier, Crashed);
      RunCoherent(earlier);
      CrashKeeps(Run(earlier).value);
      HonoursAppend(earlier, Crashed);
      JournalsSilent(records, earlier, Crashed);
      HistoryIsProjection(earlier);
      BodiesLength(records, earlier);
      StartedFlags(Run(earlier).value.pending, Run(earlier).value.started);
    }

    // ---------------------------------------------------------------- the log

    /** Something observable that is not a commit. */
    ghost method Emit(e: Event)
      requires Log() && Step(st, e).Some? && !e.Committed? && !e.TurnBegan? && !e.CancelFired? && !e.Crashed?
      requires e.Requested? || e.Permitted? ==> !cancelled
      requires e.Began? ==> BegunAs(e, tools, maxParallel)
      modifies this`trace, this`st
      ensures Grows()
      ensures Log() && st == Step(old(st), e).value && trace == old(trace) + [e]
    {
      hide KeepsTask, Run, Step, Bodies, Coherent, HonoursCancel, CancelledAt, Journals, InboxRecords, Contents;
      RunAppend(trace, e);
      StepCoherent(st, e);
      HonoursAppend(trace, e);
      JournalsSilent(journal, trace, e);
      EffectKeeps(st, e);
      trace, st := trace + [e], Step(st, e).value;
    }

    /** Every await: other handles use the inbox, and the turn's token may be cancelled. */
    method Await()
      requires Log()
      modifies this`cancelled, this`trace, inbox`queue, inbox`nextId, inbox`reserved, inbox`arrived, inbox`withdrawn
      ensures Grows()
      ensures Log() && (old(cancelled) ==> cancelled)
      ensures trace == old(trace) || trace == old(trace) + [CancelFired]
    {
      hide KeepsTask, Run, Step, Bodies, Coherent, HonoursCancel, CancelledAt, Journals, InboxRecords, Contents;
      inbox.OthersAct();
      var fires: bool := *;
      if fires {
        RunAppend(trace, CancelFired);
        HonoursAppend(trace, CancelFired);
        JournalsSilent(journal, trace, CancelFired);
        FiringIsSilent(st);
        cancelled := true;
        trace := trace + [CancelFired];
      }
    }

    /** A turn starts with a token of its own, possibly cancelled already. */
    method BeginTurn()
      requires AtRest()
      modifies this`cancelled, this`trace
      ensures Grows()
      ensures AtRest() && trace == old(trace) + [TurnBegan(cancelled)]
    {
      hide KeepsTask, Run, Step, Bodies, Coherent, HonoursCancel, CancelledAt, Journals, InboxRecords, Contents;
      var already: bool := *;
      RunAppend(trace, TurnBegan(already));
      HonoursAppend(trace, TurnBegan(already));
      JournalsSilent(journal, trace, TurnBegan(already));
      FiringIsSilent(st);
      cancelled := already;
      trace := trace + [TurnBegan(already)];
    }

    static lemma FiringIsSilent(s: State)
      ensures Step(s, CancelFired) == Some(s)
      ensures forall c :: Step(s, TurnBegan(c)) == Some(s)
    {
    }

    /** One record: durable and counted, or refused and without effect. */
    method CommitRecord(body: RecordBody, ghost reconciling: bool) returns (ok: bool)
      requires Log() && Step(st, Committed(body, reconciling)).Some? && !body.InboxRecord?
      requires GivesUp(Committed(body, reconciling), st.executed) ==> cancelled
      requires body.ContextReplaced? && policy.Summarizing? && st.faithful ==> KeepsPending(body.items, st.pending)
      requires policy.Summarizing? ==> SameTask(body, st.history)
      modifies this`nextSeq, this`journal, this`trace, this`st, this`cancelled, inbox
      ensures Grows() && RecordsOnly() && (old(cancelled) ==> cancelled)
      ensures Log() && inbox.taken == old(inbox.taken)
      ensures ok ==> st == Step(old(st), Committed(body, reconciling)).value
      ensures ok ==> journal == old(journal) + [JournalRecord(old(nextSeq), body)]
      ensures !ok ==> st == old(st) && journal == old(journal)
    {
      hide KeepsTask, Run, Step, Bodies, Coherent, HonoursCancel, CancelledAt, Journals, InboxRecords, Contents,
           KeepsPending;
      Await();
      ok := *;
      if ok {
        AppendRecord(body, reconciling);
      }
    }

    /** The sink took the record. */
    method AppendRecord(body: RecordBody, ghost reconciling: bool)
      requires Log() && Step(st, Committed(body, reconciling)).Some?
      requires GivesUp(Committed(body, reconciling), st.executed) ==> cancelled
      requires body.ContextReplaced? && policy.Summarizing? && st.faithful ==> KeepsPending(body.items, st.pending)
      requires policy.Summarizing? ==> SameTask(body, st.history)
      requires body.InboxRecord? ==> inbox.taken != [] && body == InboxRecord(inbox.taken[0].kind, inbox.taken[0].text)
      modifies this`nextSeq, this`journal, this`trace, this`st, inbox`taken, inbox`delivered
      ensures Grows()
      ensures Log() && st == Step(old(st), Committed(body, reconciling)).value
      ensures trace == old(trace) + [Committed(body, reconciling)]
      ensures journal == old(journal) + [JournalRecord(old(nextSeq), body)]
      ensures if body.InboxRecord? then inbox.taken == old(inbox.taken)[1..] && inbox.delivered == old(inbox.delivered) + [old(inbox.taken)[0]]
              else inbox.taken == old(inbox.taken) && inbox.delivered == old(inbox.delivered)
    {
      hide KeepsTask, Run, Step, Bodies, Coherent, HonoursCancel, CancelledAt, Journals, InboxRecords, Contents,
           KeepsPending, SameTask;
      ghost var e := Committed(body, reconciling);
      RunAppend(trace, e);
      StepCoherent(st, e);
      HonoursAppend(trace, e);
      JournalsAppend(journal, trace, body, reconciling);
      CommitKeeps(st, body, reconciling);
      CommitFaithful(st, body, reconciling);
      ghost var message := if body.InboxRecord? then Some(inbox.taken[0]) else None;
      InboxAccount(Bodies(trace), body, base, inbox.delivered, message);
      assert inbox.delivered + [] == inbox.delivered;
      TaskAppend(body);
      journal := journal + [JournalRecord(nextSeq, body)];
      trace, st := trace + [e], Step(st, e).value;
      nextSeq := if nextSeq < U64_MAX then nextSeq + 1 else U64_MAX;
      if body.InboxRecord? {
        inbox.Deliver();
      }
    }

    lemma TaskAppend(body: RecordBody)
      requires Log()
      ensures KeepsTask(journal) && SameTask(body, st.history) ==> KeepsTask(journal + [JournalRecord(nextSeq, body)])
    {
      hide Run, Bodies, Coherent, HonoursCancel, CancelledAt, InboxRecords, Contents, KeepsTask, SameTask, HistoryOf;
      HistoryIsProjection(trace);
      if KeepsTask(journal) && SameTask(body, st.history) {
        KeepsTaskAppend(journal, JournalRecord(nextSeq, body));
      }
    }

    // ---------------------------------------------------------------- environment

    method CommitEnvironmentIfNeeded() returns (ok: bool)
      requires Linked()
      modifies this`environmentCommitted, this`nextSeq, this`journal, this`trace, this`st, this`cancelled, inbox
      ensures Grows()
      ensures Linked() && Parts()
      ensures startedCalls == old(startedCalls)
      ensures st == old(st).(environment := st.environment, sent := st.sent)
      ensures ok ==> environmentCommitted
      ensures ok && !old(environmentCommitted) ==> BeginsWith(|old(journal)|, Environment(assembly))
      ensures old(environmentCommitted) ==> environmentCommitted
    {
      hide KeepsTask, Log, Coherent, KeepsPending, BegunAs, Unresolved, Finish, Step;
      if environmentCommitted {
        return true;
      }
      EnvironmentStep(st, assembly);
      ok := CommitRecord(Environment(assembly), false);
      if ok {
        NoteEnvironment();
      }
    }

    method NoteEnvironment()
      requires Linked() && st.environment
      modifies this`environmentCommitted
      ensures Linked() && environmentCommitted
    {
      hide KeepsTask, Run, Bodies, Coherent, HonoursCancel, CancelledAt, Journals, InboxRecords, Contents;
      environmentCommitted := true;
    }

    static lemma EnvironmentStep(s: State, assembly: Assembly)
      requires s.running == {}
      ensures Step(s, Committed(Environment(assembly), false)) == Some(s.(environment := true, sent := false))
    {
      hide Unresolved, KeepsPending, Finish, MayOverlap;
    }

    // ---------------------------------------------------------------- reconciliation

    /** A result's record, then its item. */
    method RecordResult(result: ToolResultItem, exitCode: Option<int>, ghost reconciling: bool) returns (ok: bool)
      requires Linked() && Finish(st, result, reconciling).Some? && environmentCommitted
      requires !reconciling && result.status.Cancelled? && result.callId !in st.executed ==> cancelled
      modifies this`history, this`nextSeq, this`journal, this`trace, this`st, this`cancelled, inbox
      ensures Grows() && RecordsOnly() && (old(cancelled) ==> cancelled)
      ensures Linked()
      ensures st == if ok then Finish(old(st), result, reconciling).value else old(st)
      ensures history == if ok then old(history) + [ToolResult(result)] else old(history)
    {
      hide KeepsTask, Run, Bodies, Coherent, Finish, HonoursCancel, CancelledAt, Journals, InboxRecords, Contents;
      FinishCommits(st, result, exitCode, reconciling);
      ok := CommitRecord(ToolFinished(result, exitCode), reconciling);
      if ok {
        history := history + [ToolResult(result)];
      }
    }

    static lemma FinishCommits(s: State, result: ToolResultItem, exitCode: Option<int>, reconciling: bool)
      requires s.running == {} && s.environment && Finish(s, result, reconciling).Some?
      ensures Step(s, Committed(ToolFinished(result, exitCode), reconciling)) == Finish(s, result, reconciling)
      ensures var t := Finish(s, result, reconciling).value;
              t.history == s.history + [ToolResult(result)] && t.running == {} && t.environment
    {
      hide Reconciled, IsReconciled, Unresolved;
    }

    /** Every call the history's last assistant item still lacks a result for gets one, in block
        order: unknown when it was started, cancelled otherwise. That holds for any history, one a
        replacement brought in included. Nothing is permitted or executed again. */
    method ReconcileUnresolvedCalls() returns (ok: bool)
      requires AtRest() && environmentCommitted
      modifies this, inbox
      ensures Grows() && RecordsOnly()
      ensures Parts() && environmentCommitted
      ensures if ok then Ready() else AtRest()
      ensures ok ==> Unresolved(history) == []
      ensures var results := ReconciledItems(Unresolved(old(history)), old(startedCalls));
              if ok then history == old(history) + results
              else exists n :: 0 <= n < |results| && history == old(history) + results[..n]
    {
      hide KeepsTask, Log, Coherent, Unresolved, Without, Finish, Reconciled;
      var calls := Unresolved(history);
      ghost var results := ReconciledItems(calls, startedCalls);
      WaitingIsUnresolved();
      WithoutNothing(calls);
      assert calls[0..] == calls && Ids(calls[..0]) == {};
      hide Ids;
      var i := 0;
      while i < |calls|
        invariant Grows() && RecordsOnly()
        invariant 0 <= i <= |calls|
        invariant AtRest() && environmentCommitted && Parts() && startedCalls == old(startedCalls)
        invariant Waits(st, calls, i)
        invariant Unresolved(history) == Without(calls, Ids(calls[..i]))
        invariant history == old(history) + results[..i]
      {
        ok := ReconcileOne(calls, i);
        if !ok {
          return;
        }
        assert results[..i + 1] == results[..i] + [results[i]];
        i := i + 1;
      }
      AllAnswered(calls);
      assert calls[..i] == calls && results[..i] == results;
      // Every call is answered; nothing is left to track.
      ForgetStarted();
      return true;
    }

    /** What reconciliation records for these calls, in order. */
    static function ReconciledItems(calls: seq<ToolCall>, started: set<string>): (items: seq<Item>)
      ensures |items| == |calls|
      ensures forall i :: 0 <= i < |calls| ==> items[i] == ToolResult(Reconciled(calls[i], calls[i].callId in started))
    {
      seq(|calls|, i requires 0 <= i < |calls| => ToolResult(Reconciled(calls[i], calls[i].callId in started)))
    }

    /** Of the calls found unresolved the first `i` are answered: they are the pending ones, or a
        replacement brought them. */
    static ghost predicate Waits(s: State, calls: seq<ToolCall>, i: nat)
      requires i <= |calls|
    {
      s.accounted ==> s.pending == calls[i..] || (s.pending == [] && i == 0)
    }

    static lemma AllAnswered(calls: seq<ToolCall>)
      ensures Without(calls, Ids(calls)) == []
    {
      WithoutAll(calls, Ids(calls));
    }

    method ForgetStarted()
      requires Linked() && environmentCommitted && (st.accounted ==> st.pending == [])
      modifies this`startedCalls
      ensures Ready()
    {
      hide KeepsTask, Run, Bodies, Coherent, HonoursCancel, CancelledAt, Journals, InboxRecords, Contents;
      startedCalls := {};
    }

    method ReconcileOne(calls: seq<ToolCall>, i: nat) returns (ok: bool)
      requires AtRest() && environmentCommitted
      requires i < |calls| && Waits(st, calls, i)
      requires Unresolved(history) == Without(calls, Ids(calls[..i]))
      modifies this`history, this`nextSeq, this`journal, this`trace, this`st, this`cancelled, inbox
      ensures Grows() && RecordsOnly()
      ensures AtRest()
      ensures ok ==> Waits(st, calls, i + 1) && Unresolved(history) == Without(calls, Ids(calls[..i + 1]))
      ensures history == if ok then old(history) + [ToolResult(Reconciled(calls[i], calls[i].callId in startedCalls))]
                         else old(history)
      ensures !ok ==> st == old(st)
    {
      hide KeepsTask, Log, Coherent, Unresolved, Without, Ids, IsReconciled, DistinctIds, Finish;
      var result := Reconciled(calls[i], calls[i].callId in startedCalls);
      OneUnresolvedLess(calls, i, history, result);
      MayReconcile(st, calls, i, calls[i].callId in startedCalls);
      ok := RecordResult(result, None, true);
    }

    static lemma OneUnresolvedLess(calls: seq<ToolCall>, i: nat, history: seq<Item>, result: ToolResultItem)
      requires i < |calls| && Unresolved(history) == Without(calls, Ids(calls[..i])) && result.callId == calls[i].callId
      ensures Unresolved(history + [ToolResult(result)]) == Without(calls, Ids(calls[..i + 1]))
    {
      hide Unresolved, Without;
      UnresolvedAppend(history, ToolResult(result));
      WithoutTwice(calls, Ids(calls[..i]), {result.callId});
      assert calls[..i + 1] == calls[..i] + [calls[i]];
      assert Ids(calls[..i + 1]) == Ids(calls[..i]) + {result.callId};
    }

    /** The result reconciliation writes next is one the account allows. */
    static lemma MayReconcile(s: State, calls: seq<ToolCall>, i: nat, started: bool)
      requires s.running == {} && i < |calls| && Waits(s, calls, i)
      requires Unresolved(s.history) == Without(calls, Ids(calls[..i]))
      requires s.accounted && s.pending != [] ==> (started <==> calls[i].callId in s.started)
      ensures var t := Finish(s, Reconciled(calls[i], started), true);
              && t.Some? && Waits(t.value, calls, i + 1) && t.value.started == s.started
              && (t.value.accounted ==> s.accounted && forall c :: c in t.value.pending ==> c in s.pending)
    {
      hide Unresolved, Without, Ids, Reconciled, IsReconciled;
      ReconciledIs(calls[i], started);
      if s.pending == [] && i == 0 {
        NoneAnswered(calls);
      } else if s.accounted {
        assert s.pending[1..] == calls[i + 1..];
      }
    }

    static lemma ReconciledIs(call: ToolCall, started: bool)
      ensures var result := Reconciled(call, started);
              result.callId == call.callId && result.name == call.name && IsReconciled(result)
    {
    }

    static lemma NoneAnswered(calls: seq<ToolCall>)
      ensures Without(calls, Ids(calls[..0])) == calls
    {
      WithoutNothing(calls);
      assert Ids(calls[..0]) == {};
    }

    lemma WaitingIsUnresolved()
      requires Linked()
      ensures Waits(st, Unresolved(history), 0)
    {
      hide KeepsTask, Run, Bodies, HonoursCancel, CancelledAt, Journals, InboxRecords, Contents, Unresolved,
           KeepsPending, DistinctIds, Ids;
      assert Unresolved(history)[0..] == Unresolved(history);
    }

    // ---------------------------------------------------------------- inbox delivery

    /** Inside a delivery: the batch is what remains to be delivered. */
    ghost predicate Delivering(rest: seq<Message>)
      reads this, inbox
    {
      && Log() && history == st.history && st.running == {} && environmentCommitted && startedCalls == {}
      && (st.accounted ==> st.pending == []) && inbox.taken == rest
    }

    /** The messages queued at this boundary, each durable before it is visible; when a commit
        fails the undelivered rest goes back, in order. */
    method DeliverInbox() returns (ok: bool)
      requires Ready()
      modifies this, inbox
      ensures Grows()
      ensures Parts() && Ready()
      ensures ok ==> inbox.delivered == old(inbox.delivered) + old(inbox.queue)
      ensures !ok ==> exists n :: 0 <= n < |old(inbox.queue)|
                                  && inbox.delivered == old(inbox.delivered) + old(inbox.queue)[..n]
                                  && old(inbox.queue)[n..] <= inbox.queue
      ensures st.faithful == old(st.faithful) && st.accounted == old(st.accounted)
    {
      hide KeepsTask, Log, Coherent, BegunAs;
      var messages := TakeBatch();
      var i := 0;
      while i < |messages|
        invariant Grows()
        invariant 0 <= i <= |messages|
        invariant Delivering(messages[i..])
        invariant Parts() && inbox.delivered == old(inbox.delivered) + messages[..i]
        invariant st.faithful == old(st.faithful) && st.accounted == old(st.accounted)
      {
        ok := DeliverOne(messages[i..]);
        if !ok {
          ReturnBatch(messages[i..]);
          return;
        }
        assert messages[..i + 1] == messages[..i] + [messages[i]];
        i := i + 1;
      }
      assert messages[..i] == messages;
      return true;
    }

    method TakeBatch() returns (messages: seq<Message>)
      requires Ready()
      modifies inbox
      ensures Delivering(messages) && inbox.delivered == old(inbox.delivered) && messages == old(inbox.queue)
    {
      hide KeepsTask, Run, Bodies, Coherent, HonoursCancel, CancelledAt, Journals, InboxRecords, Contents;
      messages := inbox.Drain();
    }

    method ReturnBatch(rest: seq<Message>)
      requires Delivering(rest)
      modifies inbox
      ensures Ready() && inbox.delivered == old(inbox.delivered) && inbox.queue == rest + old(inbox.queue)
    {
      hide KeepsTask, Run, Bodies, Coherent, HonoursCancel, CancelledAt, Journals, InboxRecords, Contents;
      inbox.PutBack(rest);
    }

    method DeliverOne(rest: seq<Message>) returns (durable: bool)
      requires Delivering(rest) && rest != []
      modifies this`history, this`nextSeq, this`journal, this`trace, this`st, this`cancelled, inbox
      ensures Grows()
      ensures st.faithful == old(st.faithful) && st.accounted == old(st.accounted)
      ensures if durable then Delivering(rest[1..]) && inbox.delivered == old(inbox.delivered) + [rest[0]]
              else Delivering(rest) && inbox.delivered == old(inbox.delivered)
    {
      hide KeepsTask, Log, Coherent, Contents, KeepsPending, BegunAs, Unresolved, Finish, Step;
      var m := rest[0];
      Await();
      EnvironmentIsKnown();
      durable := *;
      if durable {
        InboxStep(st, m.kind, m.text);
        AppendRecord(InboxRecord(m.kind, m.text), false);
        Show(Inbox(m.kind, m.text));
      }
    }

    method Show(item: Item)
      requires Log()
      modifies this`history
      ensures Log() && history == old(history) + [item]
    {
      hide KeepsTask, Run, Bodies, Coherent, HonoursCancel, CancelledAt, Journals, InboxRecords, Contents;
      history := history + [item];
    }

    lemma EnvironmentIsKnown()
      requires Log() && environmentCommitted
      ensures st.environment
    {
      hide KeepsTask, Run, Bodies, Coherent, HonoursCancel, CancelledAt, Journals, InboxRecords, Contents;
    }

    static lemma InboxStep(s: State, kind: InboxKind, text: string)
      requires Quiet(s) && s.environment
      ensures Step(s, Committed(InboxRecord(kind, text), false))
                == Some(s.(history := s.history + [Inbox(kind, text)], sent := false))
    {
      hide Unresolved, KeepsPending, Finish, MayOverlap;
    }

    // ---------------------------------------------------------------- interrupted responses

    method EndInterrupted(reason: InterruptionReason, partial: string, error: Option<ProviderError>, timed: bool,
                          requestIndex: nat)
      returns (end: TurnEnd)
      requires Ready() && (reason.ByProvider? ==> error.Some?)
      modifies this`nextSeq, this`journal, this`trace, this`st, this`cancelled, inbox
      ensures Grows()
      ensures Parts() && Ready() && st.accounted == old(st.accounted)
      ensures end.CommitFailed? || end == (if reason.ByCancel? then TurnCancelled else ProviderFailed(error.value))
      ensures history == old(history)
    {
      hide KeepsTask, Run, Bodies, Coherent, KeepsPending, HonoursCancel, CancelledAt, Journals, InboxRecords,
           Contents, BegunAs, Unresolved, Finish;
      end := if reason.ByCancel? then TurnCancelled else ProviderFailed(error.value);
      var ok := CommitRecord(AssistantInterrupted(reason, partial, error), false);
      if !ok {
        return CommitFailed;
      }
      if timed {
        ok := CommitRequestTiming(requestIndex);
        if !ok {
          return CommitFailed;
        }
      }
    }

    /** A journal format without this record is left alone. */
    method CommitRequestTiming(requestIndex: nat) returns (ok: bool)
      requires Linked() && environmentCommitted
      modifies this`nextSeq, this`journal, this`trace, this`st, this`cancelled, inbox
      ensures Grows()
      ensures Linked() && st == old(st).(sent := st.sent)
    {
      hide KeepsTask, Run, Bodies, Coherent, KeepsPending, HonoursCancel, CancelledAt, Journals, InboxRecords,
           Contents;
      var accepts: bool := *;
      if !accepts {
        return true;
      }
      ok := CommitRecord(RequestTiming(requestIndex), false);
    }

    // ---------------------------------------------------------------- context replacement

    /** A policy's replacement: validated, journalled, then the history. */
    method InstallReplacement(items: seq<Item>, usage: Option<Usage>) returns (r: Result<(), TurnEnd>)
      requires AtRest() && environmentCommitted
      requires policy.Summarizing? && st.faithful ==> KeepsPending(items, st.pending)
      requires policy.Summarizing? ==> KeepsWords(history, items)
      modifies this`history, this`nextSeq, this`journal, this`trace, this`st, this`cancelled, inbox
      ensures Grows()
      ensures AtRest() && Parts() && environmentCommitted
      ensures startedCalls == old(startedCalls) && st.pending == old(st.pending)
      ensures r.Ok? ==> ReplacementOk(items) && history == items
      ensures r.Err? ==> st == old(st) && (r.error.CommitFailed? || (r.error.ContextFailed? && !ReplacementOk(items)))
      ensures st.faithful <==> old(st.faithful) && (r.Ok? ==> KeepsPending(items, st.pending))
      ensures st.accounted <==> old(st.accounted) && (r.Ok? ==> st.pending == [] || Unresolved(items) == st.pending)
    {
      hide KeepsTask, Log, Coherent, KeepsPending, ReplacementOk, Offends, Unresolved;
      var valid := ValidateReplacement(items);
      if valid.Err? {
        return Err(ContextFailed(Some(valid.error)));
      }
      var ok := CommitReplacement(items, usage);
      return if ok then Ok(()) else Err(CommitFailed);
    }

    method CommitReplacement(items: seq<Item>, usage: Option<Usage>) returns (ok: bool)
      requires AtRest() && environmentCommitted
      requires policy.Summarizing? && st.faithful ==> KeepsPending(items, st.pending)
      requires policy.Summarizing? ==> KeepsWords(history, items)
      modifies this`history, this`nextSeq, this`journal, this`trace, this`st, this`cancelled, inbox
      ensures Grows()
      ensures AtRest()
      ensures if ok then
                && history == items && st.pending == old(st.pending)
                && (st.faithful <==> old(st.faithful) && KeepsPending(items, st.pending))
                && (st.accounted <==> old(st.accounted) && (st.pending == [] || Unresolved(items) == st.pending))
              else st == old(st) && history == old(history)
    {
      hide Unresolved;
      hide KeepsTask, Run, Bodies, Coherent, KeepsPending, HonoursCancel, CancelledAt, Journals, InboxRecords,
           Contents;
      ok := CommitRecord(ContextReplaced(items, usage), false);
      if ok {
        history := items;
      }
    }

    // ---------------------------------------------------------------- tool calls

    /** No pending call was permitted yet. */
    ghost predicate Fresh(calls: seq<ToolCall>)
      reads this
    {
      forall c :: c in calls ==> c.callId !in st.permitted
    }

    /** Whether one call may run: a fired token decides before the lookup, the lookup before the
        policy is asked, and what the policy permits is recorded as started. */
    method Admit(call: ToolCall, tool: Option<Tool>) returns (r: Result<Admitted, TurnEnd>)
      requires InTurn() && call in st.pending && call.callId !in st.permitted
      modifies this`nextSeq, this`journal, this`trace, this`st, this`cancelled, this`startedCalls, inbox
      ensures Grows()
      ensures InTurn()
      ensures SameBut(old(st), st, call.callId)
      ensures old(cancelled) ==> r == Ok(Settled(ToolStatus.Cancelled, CANCELLED_BEFORE_EXECUTION))
      ensures !old(cancelled) && tool.None? ==>
                r == Ok(Settled(Unavailable, "Tool `" + call.name + "` is not available."))
      ensures r.Err? ==> r.error.CommitFailed?
      ensures r.Ok? && r.value.Started? ==> tool.Some? && call.callId in st.started
      ensures r.Ok? && r.value.Settled? ==> NotExecutedStatus(r.value.status) && st.started == old(st.started)
      ensures r.Ok? && r.value.Settled? && tool.Some? ==>
                r.value.status.Denied? || (cancelled && r.value == Settled(ToolStatus.Cancelled,
                  CANCELLED_BEFORE_EXECUTION))
      ensures old(cancelled) ==> cancelled
    {
      hide KeepsTask, Run, Bodies, Coherent, HonoursCancel, CancelledAt, Journals, InboxRecords, Contents;
      if cancelled {
        return Ok(Settled(ToolStatus.Cancelled, CANCELLED_BEFORE_EXECUTION));
      }
      if tool.None? {
        return Ok(Settled(Unavailable, "Tool `" + call.name + "` is not available."));
      }
      Await();
      if cancelled {
        return Ok(Settled(ToolStatus.Cancelled, CANCELLED_BEFORE_EXECUTION));
      }
      var permits: bool, reason: string := *, *;
      if !permits {
        return Ok(Settled(Denied, reason));
      }
      var ok := StartCall(call, tool.value.identity);
      return if ok then Ok(Started) else Err(CommitFailed);
    }

    /** The policy permitted the call: its `ToolStarted` is committed before it runs. */
    method StartCall(call: ToolCall, identity: string) returns (ok: bool)
      requires InTurn() && !cancelled && call in st.pending && call.callId !in st.permitted
      modifies this`nextSeq, this`journal, this`trace, this`st, this`cancelled, this`startedCalls, inbox
      ensures Grows()
      ensures InTurn()
      ensures SameBut(old(st), st, call.callId) && (old(cancelled) ==> cancelled)
      ensures ok ==> call.callId in st.started
    {
      hide KeepsTask, Log, Coherent, KeepsPending, DistinctIds, BegunAs, Unresolved, Finish, Step;
      EnvironmentIsKnown();
      PendingDistinct();
      NotStartedYet(st, call);
      StartSteps(st, call, identity);
      Emit(Permitted(call));
      assert call.callId in Ids(st.pending);
      hide Ids;
      ok := CommitRecord(ToolStarted(call.callId, identity), false);
      if ok {
        Remember(call);
      }
    }

    method Remember(call: ToolCall)
      requires Linked()
      modifies this`startedCalls
      ensures Linked() && startedCalls == old(startedCalls) + {call.callId}
    {
      hide KeepsTask, Run, Bodies, Coherent, HonoursCancel, CancelledAt, Journals, InboxRecords, Contents;
      startedCalls := startedCalls + {call.callId};
    }

    /** The two steps that start a pending call. */
    static lemma StartSteps(s: State, call: ToolCall, identity: string)
      requires s.running == {} && s.environment && call in s.pending && call.callId !in s.permitted
                && call.callId !in s.started
      ensures Step(s, Permitted(call)) == Some(s.(permitted := s.permitted + {call.callId}))
      ensures var t := s.(permitted := s.permitted + {call.callId});
              Step(t, Committed(ToolStarted(call.callId, identity), false))
                == Some(t.(started := t.started + {call.callId}, sent := false))
    {
      hide Unresolved, KeepsPending, Finish, MayOverlap;
      assert call.callId in Ids(s.pending);
    }

    /** A step that only admits the call named `id`. */
    static ghost predicate SameBut(s: State, t: State, id: string) {
      && t.history == s.history && t.calls == s.calls && t.pending == s.pending && t.executed == s.executed
      && t.faithful == s.faithful && t.accounted == s.accounted && t.environment == s.environment
      && s.permitted <= t.permitted <= s.permitted + {id}
      && s.started <= t.started <= s.started + {id}
    }

    static lemma NotStartedYet(s: State, call: ToolCall)
      requires Coherent(s) && call.callId !in s.permitted
      ensures call.callId !in s.started && call.callId !in s.executed
    {
      hide KeepsPending, DistinctIds;
    }

    method AdmitGroup(calls: seq<ToolCall>, tools: seq<Option<Tool>>) returns (r: Result<seq<Admitted>, TurnEnd>)
      requires InTurn() && |calls| == |tools| && calls <= st.pending && Fresh(st.pending)
      modifies this`nextSeq, this`journal, this`trace, this`st, this`cancelled, this`startedCalls, inbox
      ensures Grows()
      ensures InTurn()
      ensures st.history == old(st.history) && st.calls == old(st.calls) && st.pending == old(st.pending)
      ensures st.faithful == old(st.faithful) && st.accounted == old(st.accounted) && st.executed == old(st.executed)
      ensures Fresh(st.pending[|calls|..])
      ensures r.Err? ==> r.error.CommitFailed?
      ensures r.Ok? ==> |r.value| == |calls| && forall i :: 0 <= i < |calls| ==> AdmittedAs(r.value[i], calls[i])
      ensures r.Ok? ==> HaveTools(r.value, tools)
      ensures old(cancelled) ==> cancelled
    {
      hide KeepsTask, Log, Coherent;
      ghost var pending := st.pending;
      PendingDistinct();
      var admitted: seq<Admitted> := [];
      var i := 0;
      while i < |calls|
        invariant Grows()
        invariant 0 <= i <= |calls| == |tools| && |admitted| == i
        invariant InTurn()
        invariant st.history == old(st.history) && st.calls == old(st.calls) && st.pending == pending
        invariant st.faithful == old(st.faithful) && st.accounted == old(st.accounted)
                  && st.executed == old(st.executed)
        invariant Fresh(pending[i..]) && HaveTools(admitted, tools[..i]) && (old(cancelled) ==> cancelled)
        invariant forall k :: 0 <= k < i ==> AdmittedAs(admitted[k], calls[k])
      {
        assert calls[i] == pending[i] == pending[i..][0];
        ghost var before := st;
        PendingDistinct();
        var one := Admit(calls[i], tools[i]);
        StillFresh(before, st, pending, i);
        assert forall k :: 0 <= k < i ==> AdmittedAs(admitted[k], calls[k]) by {
          forall k | 0 <= k < i ensures AdmittedAs(admitted[k], calls[k]) {
            assert calls[k].callId != calls[i].callId by { assert calls[k] == pending[k]; }
          }
        }
        if one.Err? {
          FreshSuffix(pending, i + 1, |calls|);
          return Err(one.error);
        }
        assert AdmittedAs(one.value, calls[i]) by {
          if one.value.Settled? { NotStartedYet(before, calls[i]); }
        }
        admitted := admitted + [one.value];
        i := i + 1;
      }
      assert tools[..i] == tools;
      return Ok(admitted);
    }

    /** Only a call with a tool is started; one that is not cancelled is settled by the policy's
        denial, or for want of a tool. */
    static ghost predicate HaveTools(admitted: seq<Admitted>, tools: seq<Option<Tool>>)
      requires |admitted| == |tools|
    {
      forall i :: 0 <= i < |admitted| ==>
        if admitted[i].Started? then tools[i].Some?
        else
          || admitted[i] == Settled(ToolStatus.Cancelled, CANCELLED_BEFORE_EXECUTION)
          || (if tools[i].Some? then admitted[i].status.Denied? else admitted[i].status.Unavailable?)
    }

    /** The calls of a group, each with the tool of its name, and whether they may overlap. */
    ghost predicate Group(calls: seq<ToolCall>, tools: seq<Option<Tool>>, shared: bool)
      reads this`tools, this`maxParallel
    {
      && |calls| == |tools| && (!shared ==> |calls| == 1)
      && forall i :: 0 <= i < |calls| ==>
                       tools[i] == AssembledTool(calls[i]) && (shared <==> IsShared(calls[i], tools[i], maxParallel))
    }

    /** What admission decided agrees with what is durable. */
    ghost predicate AdmittedAs(a: Admitted, call: ToolCall)
      reads this
    {
      match a
      case Started => call.callId in st.started
      case Settled(status, _) =>
        call.callId !in st.started && NotExecutedStatus(status) && (status.Cancelled? ==> cancelled)
    }

    lemma PendingDistinct()
      requires Linked()
      ensures DistinctIds(st.pending) && Coherent(st)
    {
      hide KeepsTask, Run, Bodies, HonoursCancel, CancelledAt, Journals, InboxRecords, Contents, KeepsPending,
           DistinctIds;
      SuffixDistinct(st.calls, |st.calls| - |st.pending|);
    }

    lemma StillFresh(before: State, after: State, pending: seq<ToolCall>, i: nat)
      requires i < |pending| && DistinctIds(pending) && SameBut(before, after, pending[i].callId) && after == st
      requires forall c :: c in pending[i..] ==> c.callId !in before.permitted
      ensures Fresh(pending[i + 1..])
    {
      forall c | c in pending[i + 1..] ensures c.callId !in st.permitted {
        var k :| i + 1 <= k < |pending| && pending[k] == c;
        assert pending[i..][k - i] == c;
      }
    }

    lemma FreshSuffix(pending: seq<ToolCall>, i: nat, n: nat)
      requires i <= n <= |pending| && Fresh(pending[i..])
      ensures Fresh(pending[n..])
    {
      forall c | c in pending[n..] ensures c in pending[i..] {
        var k :| n <= k < |pending| && pending[k] == c;
        assert pending[i..][k - i] == c;
      }
    }

    /** Step (b), while it runs. */
    ghost predicate Executing(before: State, calls: seq<ToolCall>, admitted: seq<Admitted>, shared: bool,
                              next: nat, running: set<nat>, executed: seq<Option<Executed>>)
      reads this, inbox
      requires |calls| == |admitted| == |executed| && next <= |calls|
    {
      Log() && history == st.history && inbox.taken == []
      && Tracks(before, st, maxParallel, cancelled, calls, admitted, shared, next, running, executed)
    }

    /** The next admitted call starts. A call behind the bound does not if the token
        fired in the meantime. */
    method Launch(ghost before: State, calls: seq<ToolCall>, tools: seq<Option<Tool>>, ghost admitted: seq<Admitted>,
                  ghost shared: bool,
                  next: nat, running: set<nat>, executed: seq<Option<Executed>>, queued: bool)
      returns (running': set<nat>, executed': seq<Option<Executed>>)
      requires |calls| == |admitted| == |executed| && next < |calls| && DistinctIds(calls)
      requires Executing(before, calls, admitted, shared, next, running, executed)
      requires admitted[next].Started? && calls[next].callId in before.started && calls[next] in before.pending
      requires |running| < maxParallel && executed[next].None?
      requires Group(calls, tools, shared) && tools[next].Some?
      requires queued <==> StartedAmong(admitted, next) >= maxParallel
      modifies this`trace, this`st
      ensures Grows()
      ensures |executed'| == |calls|
      ensures Executing(before, calls, admitted, shared, next + 1, running', executed')
      ensures forall i :: next + 1 <= i < |calls| ==> executed'[i] == executed[i]
    {
      hide KeepsTask, Log, Tracks;
      TracksNext(before, st, maxParallel, cancelled, calls, admitted, shared, next, running, executed);
      if queued && cancelled {
        TracksGivenUp(before, st, maxParallel, cancelled, calls, admitted, shared, next, running, executed);
        running', executed' := running, executed[next := Some(GIVEN_UP)];
      } else {
        running', executed' := running + {next}, executed;
        ghost var earlier := st;
        Begin(calls[next], tools[next].value, shared);
        TracksBegin(before, earlier, st, maxParallel, cancelled, calls, admitted, shared, next, running, executed);
      }
    }

    method Begin(call: ToolCall, tool: Tool, ghost shared: bool)
      requires AssembledTool(call) == Some(tool) && (shared <==> IsShared(call, Some(tool), maxParallel))
      requires Log() && call in st.pending && call.callId in st.started && call.callId !in st.executed
      requires |st.running| < maxParallel && (st.running != {} ==> shared && st.overlapping)
      modifies this`trace, this`st
      ensures Grows()
      ensures Log()
      ensures st == old(st).(executed := old(st).executed + {call.callId},
                             running := old(st).running + {call.callId}, overlapping := shared)
      ensures call.callId !in old(st).running
    {
      NotRunningYet(st, call);
      hide KeepsTask, Run, Bodies, Coherent, HonoursCancel, CancelledAt, Journals, InboxRecords, Contents, Log;
      Emit(Began(call, tool.concurrency(call), tool.effect(call), maxParallel));
    }

    static lemma NotRunningYet(s: State, call: ToolCall)
      requires Coherent(s) && call.callId !in s.executed
      ensures call.callId !in s.running
    {
      hide KeepsPending, DistinctIds, Ids;
    }

    method WaitExecuting(ghost before: State, calls: seq<ToolCall>, ghost admitted: seq<Admitted>, ghost shared: bool,
                         ghost next: nat, running: set<nat>, executed: seq<Option<Executed>>)
      requires |calls| == |admitted| == |executed| && next <= |calls|
      requires Executing(before, calls, admitted, shared, next, running, executed)
      modifies this`trace, this`cancelled, inbox
      ensures Grows() && (old(cancelled) ==> cancelled)
      ensures Executing(before, calls, admitted, shared, next, running, executed)
    {
      hide KeepsTask, Log, Tracks;
      if !cancelled { TracksFired(before, st, maxParallel, calls, admitted, shared, next, running, executed); }
      Await();
    }

    /** One running call, whichever it is, returns. */
    method Return(ghost before: State, calls: seq<ToolCall>, ghost admitted: seq<Admitted>, ghost shared: bool,
                  ghost next: nat, running: set<nat>, executed: seq<Option<Executed>>, index: nat)
      returns (executed': seq<Option<Executed>>)
      requires |calls| == |admitted| == |executed| && next <= |calls| && DistinctIds(calls)
      requires Executing(before, calls, admitted, shared, next, running, executed)
      requires index in running
      modifies this`trace, this`st, this`cancelled, inbox
      ensures Grows() && (old(cancelled) ==> cancelled)
      ensures |executed'| == |calls|
      ensures Executing(before, calls, admitted, shared, next, running - {index}, executed')
      ensures forall i :: next <= i < |calls| ==> executed'[i] == executed[i]
    {
      hide KeepsTask, Log, Tracks, DistinctIds, MayOverlap;
      WaitExecuting(before, calls, admitted, shared, next, running, executed);
      TracksReturn(before, st, maxParallel, cancelled, calls, admitted, shared, next, running, executed, index);
      var outcome: ToolOutcome, endsTurn: bool, exitCode: Option<int> := *, *, *;
      Emit(Returned(calls[index]));
      executed' := executed[index := Some(Executed(outcome, endsTurn, exitCode))];
    }

    /** Step (b) of a group: the admitted calls run, at most `maxParallel` at once, starting in
        block order and returning in any order. All of them are awaited. */
    method ExecuteGroup(calls: seq<ToolCall>, tools: seq<Option<Tool>>, admitted: seq<Admitted>, shared: bool)
      returns (executed: seq<Option<Executed>>)
      requires Linked() && |calls| == |admitted| == |tools| && calls <= st.pending
      requires Group(calls, tools, shared) && HaveTools(admitted, tools)
      requires forall i :: 0 <= i < |calls| ==> AdmittedAs(admitted[i], calls[i]) && calls[i].callId !in st.executed
      modifies this`trace, this`st, this`cancelled, inbox
      ensures Grows() && (old(cancelled) ==> cancelled)
      ensures Linked() && |executed| == |calls|
      ensures st == old(st).(executed := st.executed, overlapping := st.overlapping) && old(st).executed <= st.executed
      ensures forall i :: 0 <= i < |calls| && admitted[i].Started? ==>
                            executed[i].Some? && RanOrGivenUp(st, maxParallel, cancelled, calls, admitted, executed, i)
    {
      hide KeepsTask, Log, Coherent, MayOverlap, RanOrGivenUp, DistinctIds, Ids, Tracks, Agent.Executing, MayStart,
           Agent.HaveTools, BegunAs;
      ghost var before := st;
      PendingDistinct();
      PrefixDistinct(st.pending, calls);
      AdmittedMayStart(calls, admitted);
      executed := seq(|calls|, i requires 0 <= i < |calls| => None);
      ExecutingStarts(calls, admitted, shared, executed);
      executed := ExecuteAll(before, calls, tools, admitted, shared, executed);
      ExecutingDone(before, calls, admitted, shared, executed);
    }

    method ExecuteAll(ghost before: State, calls: seq<ToolCall>, tools: seq<Option<Tool>>, admitted: seq<Admitted>,
                      ghost shared: bool,
                      none: seq<Option<Executed>>)
      returns (executed: seq<Option<Executed>>)
      requires |calls| == |admitted| == |none| == |tools| && NoneFrom(none, 0)
      requires DistinctIds(calls) && MayStart(before, calls, admitted)
      requires Group(calls, tools, shared) && HaveTools(admitted, tools)
      requires Executing(before, calls, admitted, shared, 0, {}, none)
      modifies this`trace, this`st, this`cancelled, inbox
      ensures Grows() && (old(cancelled) ==> cancelled)
      ensures |executed| == |calls| && Executing(before, calls, admitted, shared, |calls|, {}, executed)
    {
      hide KeepsTask, Log, Coherent, MayOverlap, RanOrGivenUp, DistinctIds, Ids, Tracks, Agent.Executing, MayStart,
           Agent.HaveTools, BegunAs;
      executed := none;
      var next, launched, running := 0, 0, {};
      while next < |calls| || running != {}
        invariant Grows() && (old(cancelled) ==> cancelled)
        invariant 0 <= next <= |calls| == |admitted| == |executed| && NoneFrom(executed, next)
        invariant launched == StartedAmong(admitted, next)
        invariant Executing(before, calls, admitted, shared, next, running, executed)
        decreases |calls| - next, |running|
      {
        next, launched, running, executed := ExecuteStep(before, calls, tools, admitted, shared, next, launched,
                                                         running, executed);
      }
    }

    /** A settled call is passed over, the next one is started while there is room, or one that
        runs returns. */
    method ExecuteStep(ghost before: State, calls: seq<ToolCall>, tools: seq<Option<Tool>>, admitted: seq<Admitted>,
                       ghost shared: bool,
                       next: nat, launched: nat, running: set<nat>, executed: seq<Option<Executed>>)
      returns (next': nat, launched': nat, running': set<nat>, executed': seq<Option<Executed>>)
      requires |calls| == |admitted| == |executed| == |tools| && next <= |calls| && (next < |calls| || running != {})
      requires DistinctIds(calls) && MayStart(before, calls, admitted) && NoneFrom(executed, next)
      requires Group(calls, tools, shared) && HaveTools(admitted, tools)
      requires Executing(before, calls, admitted, shared, next, running, executed)
                && launched == StartedAmong(admitted, next)
      modifies this`trace, this`st, this`cancelled, inbox
      ensures Grows() && (old(cancelled) ==> cancelled)
      ensures next' <= |calls| == |executed'| && NoneFrom(executed', next')
                && launched' == StartedAmong(admitted, next')
      ensures Executing(before, calls, admitted, shared, next', running', executed')
      ensures next' > next || (next' == next && running' < running && |running'| < |running|)
    {
      hide KeepsTask, Log, Tracks, DistinctIds, Ids, Agent.Executing, Agent.HaveTools, Agent.Group, MayStart,
           NoneFrom, StartedAmong, BegunAs, Coherent;
      next', launched', running', executed' := next, launched, running, executed;
      var start: bool := *;
      if next < |calls| { NextMayStart(before, calls, tools, admitted, next, executed); }
      if next < |calls| && admitted[next].Settled? {
        ExecutingSkips(before, calls, admitted, shared, next, running, executed);
        next' := next + 1;
      } else if next < |calls| && |running| < maxParallel && (start || running == {}) {
        running', executed' := Launch(before, calls, tools, admitted, shared, next, running, executed,
                                      launched >= maxParallel);
        StillNone(executed, executed', next + 1);
        next', launched' := next + 1, launched + 1;
      } else {
        var index :| index in running;
        executed' := Return(before, calls, admitted, shared, next, running, executed, index);
        StillNone(executed, executed', next);
        running' := running - {index};
      }
    }

    lemma AdmittedMayStart(calls: seq<ToolCall>, admitted: seq<Admitted>)
      requires |calls| == |admitted| && calls <= st.pending
      requires forall i :: 0 <= i < |calls| ==> AdmittedAs(admitted[i], calls[i])
      ensures MayStart(st, calls, admitted)
    {
      forall i | 0 <= i < |calls|
        ensures calls[i] in st.pending && (admitted[i].Started? ==> calls[i].callId in st.started)
      {
        assert st.pending[i] == calls[i];
      }
    }

    /** The next call may start, and those behind it have no outcome yet. */
    static lemma NextMayStart(before: State, calls: seq<ToolCall>, tools: seq<Option<Tool>>, admitted: seq<Admitted>,
                              next: nat,
                              executed: seq<Option<Executed>>)
      requires next < |calls| == |admitted| == |executed| == |tools| && MayStart(before, calls, admitted)
                && NoneFrom(executed, next)
      requires HaveTools(admitted, tools)
      ensures StartedAmong(admitted, next + 1) == StartedAmong(admitted, next)
                + if admitted[next].Started? then 1 else 0
      ensures executed[next].None? && NoneFrom(executed, next + 1)
      ensures admitted[next].Started? ==>
                calls[next].callId in before.started && calls[next] in before.pending && tools[next].Some?
    {
    }

    static lemma StillNone(executed: seq<Option<Executed>>, after: seq<Option<Executed>>, next: nat)
      requires |executed| == |after| && NoneFrom(executed, next) && forall i :: next <= i < |executed| ==>
                after[i] == executed[i]
      ensures NoneFrom(after, next)
    {
    }

    lemma ExecutingStarts(calls: seq<ToolCall>, admitted: seq<Admitted>, shared: bool, executed: seq<Option<Executed>>)
      requires Linked() && |calls| == |admitted| == |executed|
      requires forall i :: 0 <= i < |calls| ==> calls[i].callId !in st.executed && executed[i].None?
      ensures Executing(st, calls, admitted, shared, 0, {}, executed)
    {
      hide KeepsTask, Log, Tracks;
      TracksStart(st, maxParallel, cancelled, calls, admitted, shared, executed);
    }

    lemma ExecutingSkips(before: State, calls: seq<ToolCall>, admitted: seq<Admitted>, shared: bool,
                         next: nat, running: set<nat>, executed: seq<Option<Executed>>)
      requires |calls| == |admitted| == |executed| && next < |calls| && admitted[next].Settled?
      requires Executing(before, calls, admitted, shared, next, running, executed)
      ensures Executing(before, calls, admitted, shared, next + 1, running, executed)
    {
      hide KeepsTask, Log, Tracks;
      TracksSkip(before, st, maxParallel, cancelled, calls, admitted, shared, next, running, executed);
    }

    lemma ExecutingDone(before: State, calls: seq<ToolCall>, admitted: seq<Admitted>, shared: bool,
                        executed: seq<Option<Executed>>)
      requires |calls| == |admitted| == |executed| && before.running == {}
      requires Executing(before, calls, admitted, shared, |calls|, {}, executed)
      ensures Linked() && st == before.(executed := st.executed, overlapping := st.overlapping)
                && before.executed <= st.executed
      ensures forall i :: 0 <= i < |calls| && admitted[i].Started? ==>
                            executed[i].Some? && RanOrGivenUp(st, maxParallel, cancelled, calls, admitted, executed, i)
    {
      hide KeepsTask, Log, Tracks, RanOrGivenUp;
      TracksDone(before, st, maxParallel, cancelled, calls, admitted, shared, executed);
    }

    /** A call's result may be recorded: it is the next pending call's, and it claims no
        execution that did not happen. */
    static lemma FinishAllowed(s: State, call: ToolCall, status: ToolStatus, content: string)
      requires s.running == {} && s.pending != [] && s.pending[0] == call
      requires call.callId in s.executed
               || (call.callId in s.started && status.Cancelled?)
               || (call.callId !in s.started && NotExecutedStatus(status))
      ensures var result := ToolResultItem(call.callId, call.name, status, content);
              Finish(s, result, false) == Some(s.(history := s.history + [ToolResult(result)],
                                                  pending := s.pending[1..], sent := false))
    {
    }

    /** `finish_started`: an outcome becomes a durable result and an item. */
    method FinishStarted(call: ToolCall, executed: Executed) returns (ok: bool)
      requires InTurn() && st.pending != [] && st.pending[0] == call && call.callId in st.started
      requires call.callId in st.executed || (executed == GIVEN_UP && cancelled)
      modifies this`history, this`nextSeq, this`journal, this`trace, this`st, this`cancelled, this`startedCalls, inbox
      ensures Grows() && (old(cancelled) ==> cancelled)
      ensures InTurn()
      ensures ok ==> st == old(st).(history := st.history, pending := old(st).pending[1..], sent := st.sent)
      ensures ok ==> history == old(history) + [ResultOf(call, Started, Some(executed))]
      ensures !ok ==> st == old(st) && history == old(history)
    {
      hide KeepsTask, Log, Coherent, Finish, Ids;
      var result := ToolResultItem(call.callId, call.name, executed.outcome.status, executed.outcome.content);
      FinishAllowed(st, call, result.status, result.content);
      PendingDistinct();
      TailIds(st.pending, 0);
      assert st.pending[0..] == st.pending;
      ok := RecordResult(result, executed.exitCode, false);
      if ok {
        Forget(call);
      }
    }

    method Forget(call: ToolCall)
      requires Linked()
      modifies this`startedCalls
      ensures Linked() && startedCalls == old(startedCalls) - {call.callId}
    {
      hide KeepsTask, Run, Bodies, Coherent, HonoursCancel, CancelledAt, Journals, InboxRecords, Contents;
      startedCalls := startedCalls - {call.callId};
    }

    /** `finish_tool`: a call that never ran gets its result just the same. */
    method FinishTool(call: ToolCall, status: ToolStatus, content: string) returns (ok: bool)
      requires InTurn() && st.pending != [] && st.pending[0] == call && call.callId !in st.started
      requires NotExecutedStatus(status) && (status.Cancelled? ==> cancelled)
      modifies this`history, this`nextSeq, this`journal, this`trace, this`st, this`cancelled, inbox
      ensures Grows() && (old(cancelled) ==> cancelled)
      ensures InTurn()
      ensures ok ==> st == old(st).(history := st.history, pending := old(st).pending[1..], sent := st.sent)
      ensures ok ==> history == old(history) + [ResultOf(call, Settled(status, content), None)]
      ensures !ok ==> st == old(st) && history == old(history)
    {
      hide KeepsTask, Log, Coherent, Finish, Ids;
      var result := ToolResultItem(call.callId, call.name, status, content);
      FinishAllowed(st, call, status, content);
      PendingDistinct();
      TailIds(st.pending, 0);
      assert st.pending[0..] == st.pending;
      ok := RecordResult(result, None, false);
    }

    /** Step (c) for one call. Every started call was awaited, so it has an outcome. */
    method FinishCall(call: ToolCall, admitted: Admitted, executed: Option<Executed>) returns (ok: bool)
      requires InTurn() && st.pending != [] && st.pending[0] == call && AdmittedAs(admitted, call)
      requires admitted.Started? ==>
                executed.Some? && (call.callId in st.executed || (executed.value == GIVEN_UP && cancelled))
      modifies this`history, this`nextSeq, this`journal, this`trace, this`st, this`cancelled, this`startedCalls, inbox
      ensures Grows() && (old(cancelled) ==> cancelled)
      ensures InTurn()
      ensures ok ==> st == old(st).(history := st.history, pending := old(st).pending[1..], sent := st.sent)
      ensures ok ==> history == old(history) + [ResultOf(call, admitted, executed)]
      ensures !ok ==> st == old(st) && history == old(history)
    {
      hide KeepsTask, Log, Coherent, Ids;
      match admitted {
        case Started => ok := FinishStarted(call, executed.value);
        case Settled(status, content) => ok := FinishTool(call, status, content);
      }
    }

    /** Each call was started and has an outcome, or was settled without an execution; one is given
        up only when the token fired. */
    static ghost predicate Finishable(s: State, fired: bool, calls: seq<ToolCall>, admitted: seq<Admitted>,
                                      executed: seq<Option<Executed>>)
      requires |calls| == |admitted| == |executed|
    {
      forall i :: 0 <= i < |calls| ==>
                    match admitted[i]
                    case Started => calls[i].callId in s.started && executed[i].Some?
                                    && (calls[i].callId in s.executed || (executed[i].value == GIVEN_UP && fired))
                    case Settled(status, _) =>
                      calls[i].callId !in s.started && NotExecutedStatus(status) && (status.Cancelled? ==> fired)
    }

    lemma FinishableAt(before: State, fired: bool, calls: seq<ToolCall>, admitted: seq<Admitted>,
                       executed: seq<Option<Executed>>, i: nat)
      requires |calls| == |admitted| == |executed| && Finishable(before, fired, calls, admitted, executed)
                && i < |calls|
      requires fired ==> cancelled
      requires st.started == before.started && st.executed == before.executed
      ensures AdmittedAs(admitted[i], calls[i])
      ensures admitted[i].Started? ==>
                executed[i].Some? && (calls[i].callId in st.executed || (executed[i].value == GIVEN_UP && cancelled))
    {
    }

    /** Step (c) of a group: every result, in block order. */
    method FinishGroup(calls: seq<ToolCall>, admitted: seq<Admitted>, executed: seq<Option<Executed>>)
      returns (r: Result<bool, TurnEnd>)
      requires InTurn() && |calls| == |admitted| == |executed| && calls <= st.pending
      requires forall i :: 0 <= i < |calls| ==> AdmittedAs(admitted[i], calls[i])
      requires forall i :: 0 <= i < |calls| && admitted[i].Started? ==>
                             executed[i].Some? && (calls[i].callId in st.executed
                               || (executed[i].value == GIVEN_UP && cancelled))
      modifies this`history, this`nextSeq, this`journal, this`trace, this`st, this`cancelled, this`startedCalls, inbox
      ensures Grows()
      ensures InTurn()
      ensures st.faithful == old(st.faithful) && st.accounted == old(st.accounted) && old(history) <= history
      ensures r.Ok? ==> st == old(st).(history := st.history, pending := old(st).pending[|calls|..], sent := st.sent)
      ensures r.Ok? ==> history == old(history) + GroupResults(calls, admitted, executed)
      ensures r.Ok? ==> (r.value <==> SomeEndsTurn(admitted, executed))
      ensures r.Err? ==> r.error.CommitFailed?
      ensures old(cancelled) ==> cancelled
    {
      hide KeepsTask, Log, Coherent, Ids, BegunAs, ResultOf, SomeEndsTurn, GroupResults;
      assert Finishable(st, cancelled, calls, admitted, executed);
      r := FinishEach(calls, admitted, executed);
    }

    method FinishEach(calls: seq<ToolCall>, admitted: seq<Admitted>, executed: seq<Option<Executed>>)
      returns (r: Result<bool, TurnEnd>)
      requires InTurn() && |calls| == |admitted| == |executed| && calls <= st.pending
      requires Finishable(st, cancelled, calls, admitted, executed)
      modifies this`history, this`nextSeq, this`journal, this`trace, this`st, this`cancelled, this`startedCalls, inbox
      ensures Grows()
      ensures InTurn()
      ensures st.faithful == old(st.faithful) && st.accounted == old(st.accounted) && old(history) <= history
      ensures r.Ok? ==> st == old(st).(history := st.history, pending := old(st).pending[|calls|..], sent := st.sent)
      ensures r.Ok? ==> history == old(history) + GroupResults(calls, admitted, executed)
      ensures r.Ok? ==> (r.value <==> SomeEndsTurn(admitted, executed))
      ensures r.Err? ==> r.error.CommitFailed?
      ensures old(cancelled) ==> cancelled
    {
      hide KeepsTask, Log, Coherent, Ids, BegunAs, ResultOf, SomeEndsTurn, AdmittedAs, GroupResults, Finishable,
           Agent.InTurn;
      ghost var before := st;
      var endsTurn := false;
      ghost var items := GroupResults(calls, admitted, executed);
      NoneEndsTurn(admitted, executed);
      var i := 0;
      while i < |calls|
        invariant Grows()
        invariant 0 <= i <= |calls|
        invariant InTurn() && st == before.(history := st.history, pending := before.pending[i..], sent := st.sent)
        invariant history == old(history) + items[..i]
        invariant endsTurn <==> SomeEndsTurn(admitted[..i], executed[..i])
        invariant old(cancelled) ==> cancelled
      {
        assert calls[i] == before.pending[i] == st.pending[0];
        FinishableAt(before, old(cancelled), calls, admitted, executed, i);
        endsTurn := endsTurn || (admitted[i].Started? && executed[i].value.endsTurn);
        var ok := FinishCall(calls[i], admitted[i], executed[i]);
        if !ok {
          return Err(CommitFailed);
        }
        assert items[..i + 1] == items[..i] + [items[i]];
        EndsTurnStep(admitted, executed, i);
        i := i + 1;
      }
      assert items[..i] == items && admitted[..i] == admitted && executed[..i] == executed;
      return Ok(endsTurn);
    }

    /** What became of each call: it was settled for a reason that holds, or started and executed,
        or given up because the token fired. */
    static ghost predicate Ran(ids: set<string>, fired: bool, assembled: seq<Tool>,
                               calls: seq<ToolCall>, admitted: seq<Admitted>, executed: seq<Option<Executed>>)
    {
      && |calls| == |admitted| == |executed|
      && forall i :: 0 <= i < |calls| ==>
        RanAs(ids, fired, Lookup(assembled, calls[i].name), calls[i], admitted[i], executed[i])
    }

    static ghost predicate RanAs(ids: set<string>, fired: bool, tool: Option<Tool>, call: ToolCall, admitted: Admitted,
                                 executed: Option<Executed>)
    {
      if admitted.Started? then
        tool.Some? && executed.Some? && (call.callId in ids || (executed.value == GIVEN_UP && fired))
      else
        || (admitted == Settled(ToolStatus.Cancelled, CANCELLED_BEFORE_EXECUTION) && fired)
        || (if tool.Some? then admitted.status.Denied? else admitted.status.Unavailable?)
    }

    static lemma RanConcat(ids: set<string>, fired: bool, more: set<string>, firedMore: bool, assembled: seq<Tool>,
                           calls: seq<ToolCall>, admitted: seq<Admitted>, executed: seq<Option<Executed>>,
                           calls': seq<ToolCall>, admitted': seq<Admitted>, executed': seq<Option<Executed>>)
      requires ids <= more && (fired ==> firedMore)
      requires Ran(ids, fired, assembled, calls, admitted, executed)
                && Ran(more, firedMore, assembled, calls', admitted', executed')
      ensures Ran(more, firedMore, assembled, calls + calls', admitted + admitted', executed + executed')
    {
      hide Lookup;
    }

    lemma GroupRan(calls: seq<ToolCall>, tools: seq<Option<Tool>>, admitted: seq<Admitted>,
                   executed: seq<Option<Executed>>, shared: bool)
      requires |calls| == |admitted| == |tools| == |executed| && Group(calls, tools, shared)
                && HaveTools(admitted, tools)
      requires forall i :: 0 <= i < |calls| ==> AdmittedAs(admitted[i], calls[i])
      requires forall i :: 0 <= i < |calls| && admitted[i].Started? ==>
                             executed[i].Some? && RanOrGivenUp(st, maxParallel, cancelled, calls, admitted, executed, i)
      ensures Ran(st.executed, cancelled, this.tools, calls, admitted, executed)
    {
      hide Lookup, IsShared;
    }

    /** One group: admit, execute, record. `Ok(true)` asks the turn to end. */
    method RunGroup(calls: seq<ToolCall>, tools: seq<Option<Tool>>, shared: bool)
      returns (r: Result<bool, TurnEnd>, ghost admitted: seq<Admitted>, ghost executed: seq<Option<Executed>>)
      requires InTurn() && calls <= st.pending && Fresh(st.pending) && Group(calls, tools, shared)
      modifies this`history, this`nextSeq, this`journal, this`trace, this`st, this`cancelled, this`startedCalls, inbox
      ensures Grows()
      ensures InTurn() && st.faithful == old(st.faithful) && st.accounted == old(st.accounted)
                && old(history) <= history
      ensures old(cancelled) ==> cancelled
      ensures r.Ok? ==> st.pending == old(st.pending)[|calls|..] && Fresh(st.pending) && old(st.executed) <= st.executed
      ensures r.Ok? ==>
                |calls| == |admitted| == |executed|
                && Ran(st.executed, cancelled, this.tools, calls, admitted, executed)
      ensures r.Ok? ==> history == old(history) + GroupResults(calls, admitted, executed)
      ensures r.Ok? ==> (r.value <==> SomeEndsTurn(admitted, executed))
      ensures r.Err? ==> r.error.CommitFailed?
    {
      hide KeepsTask, Log, Coherent, Ids, GroupResults, SomeEndsTurn, Agent.Ran, Agent.HaveTools;
      admitted, executed := [], [];
      PendingDistinct();
      NoneExecuted(calls);
      var admission := AdmitGroup(calls, tools);
      if admission.Err? {
        r := Err(admission.error);
        return;
      }
      var outcomes := ExecuteGroup(calls, tools, admission.value, shared);
      admitted, executed := admission.value, outcomes;
      GroupRan(calls, tools, admitted, executed, shared);
      ghost var ids, fired := st.executed, cancelled;
      r := FinishGroup(calls, admission.value, outcomes);
      if fired != cancelled { RanLater(ids, fired, cancelled, this.tools, calls, admitted, executed); }
    }

    static lemma RanLater(ids: set<string>, fired: bool, firedMore: bool, assembled: seq<Tool>,
                          calls: seq<ToolCall>, admitted: seq<Admitted>, executed: seq<Option<Executed>>)
      requires (fired ==> firedMore) && Ran(ids, fired, assembled, calls, admitted, executed)
      ensures Ran(ids, firedMore, assembled, calls, admitted, executed)
    {
      hide Lookup;
    }

    lemma NoneExecuted(calls: seq<ToolCall>)
      requires Coherent(st) && calls <= st.pending && Fresh(st.pending)
      ensures forall i :: 0 <= i < |calls| ==> calls[i].callId !in st.executed
    {
      hide KeepsPending, DistinctIds, Ids;
      forall i | 0 <= i < |calls| ensures calls[i].callId !in st.executed {
        assert calls[i] == st.pending[i];
      }
    }

    // ---------------------------------------------------------------- one request

    /** A call is dispatched to the tool of exactly its name, if one is assembled. */
    function AssembledTool(call: ToolCall): (tool: Option<Tool>)
      reads this`tools
      ensures tool.Some? ==> tool.value in tools && tool.value.name == call.name
      ensures tool.None? ==> forall t :: t in tools ==> t.name != call.name
    {
      Lookup(tools, call.name)
    }

    lemma IsGroup(calls: seq<ToolCall>, tools: seq<Option<Tool>>, start: nat, end: nat, shared: bool)
      requires start < end <= |calls| == |tools| && (end > start + 1 ==> shared)
      requires forall i :: 0 <= i < |calls| ==> tools[i] == AssembledTool(calls[i])
      requires forall i :: start <= i < end ==> (shared <==> SharedAt(calls, tools, maxParallel, i))
      ensures Group(calls[start..end], tools[start..end], shared)
      ensures calls[start..end] <= calls[start..]
    {
      hide IsShared, Agent.AssembledTool;
      assert forall i :: start <= i < end ==>
               calls[start..end][i - start] == calls[i] && tools[start..end][i - start] == tools[i];
      forall i | 0 <= i < end - start
        ensures tools[start..end][i] == AssembledTool(calls[start..end][i])
        ensures shared <==> IsShared(calls[start..end][i], tools[start..end][i], maxParallel)
      {
        assert SharedAt(calls, tools, maxParallel, start + i)
                 == IsShared(calls[start + i], tools[start + i], maxParallel);
      }
    }

    /** The calls of a committed response, group by group. */
    method RunCalls(calls: seq<ToolCall>)
      returns (r: Result<bool, TurnEnd>, ghost admitted: seq<Admitted>, ghost executed: seq<Option<Executed>>)
      requires InTurn() && st.pending == calls && Fresh(calls)
      modifies this`history, this`nextSeq, this`journal, this`trace, this`st, this`cancelled, this`startedCalls, inbox
      ensures Grows()
      ensures InTurn() && old(history) <= history && st.accounted == old(st.accounted)
      ensures r.Ok? ==> st.pending == []
      ensures r.Ok? ==>
                |calls| == |admitted| == |executed| && Ran(st.executed, cancelled, tools, calls, admitted, executed)
      ensures r.Ok? ==> history == old(history) + GroupResults(calls, admitted, executed)
      ensures r.Ok? ==> (r.value <==> SomeEndsTurn(admitted, executed))
      ensures r.Err? ==> r.error.CommitFailed?
    {
      hide KeepsTask, Log, Coherent, Ids, IsShared, MaximalGroups, BegunAs, SharedAt, Agent.Group, GroupResults,
           SomeEndsTurn, Agent.Ran;
      admitted, executed := [], [];
      NothingRan(st.executed, cancelled, this.tools, calls);
      assert history + [] == history;
      NoGroups(calls);
      var tools := seq(|calls|, i requires 0 <= i < |calls| reads this`tools => AssembledTool(calls[i]));
      var groups := Groups(calls, tools, maxParallel);
      var endsTurn, g, done := false, 0, 0;
      while g < |groups|
        invariant Grows()
        invariant 0 <= g <= |groups| && 0 <= done <= |calls| == |tools|
        invariant MaximalGroups(groups[..g], done, calls, tools, maxParallel)
        invariant InTurn() && st.pending == calls[done..] && Fresh(st.pending) && old(history) <= history
        invariant st.accounted == old(st.accounted) && this.tools == old(this.tools) && maxParallel == old(maxParallel)
        invariant |admitted| == |executed| == done
                  && Ran(st.executed, cancelled, this.tools, calls[..done], admitted, executed)
        invariant history == old(history) + GroupResults(calls[..done], admitted, executed)
        invariant endsTurn <==> SomeEndsTurn(admitted, executed)
      {
        var range := groups[g];
        var shared := NextGroup(groups, g, done, calls, tools, maxParallel);
        IsGroup(calls, tools, range.start, range.end, shared);
        var one;
        one, admitted, executed := RunNext(calls, tools, done, range.end, shared, old(history), admitted, executed);
        if one.Err? {
          r := one;
          return;
        }
        endsTurn := endsTurn || one.value;
        done := range.end;
        g := g + 1;
      }
      assert groups[..g] == groups;
      SameCut(groups, done, |calls|, calls, tools, maxParallel);
      assert calls[|calls|..] == [] && calls[..|calls|] == calls;
      r := Ok(endsTurn);
    }

    /** The next group of a response, behind the calls that were run before it. */
    method RunNext(calls: seq<ToolCall>, tools: seq<Option<Tool>>, done: nat, end: nat, shared: bool,
                   ghost before: seq<Item>,
                   ghost admitted: seq<Admitted>, ghost executed: seq<Option<Executed>>)
      returns (r: Result<bool, TurnEnd>, ghost admitted': seq<Admitted>, ghost executed': seq<Option<Executed>>)
      requires InTurn() && done < end <= |calls| == |tools| && st.pending == calls[done..] && Fresh(st.pending)
      requires Group(calls[done..end], tools[done..end], shared)
      requires |admitted| == |executed| == done
                && Ran(st.executed, cancelled, this.tools, calls[..done], admitted, executed)
      requires history == before + GroupResults(calls[..done], admitted, executed)
      modifies this`history, this`nextSeq, this`journal, this`trace, this`st, this`cancelled, this`startedCalls, inbox
      ensures Grows()
      ensures InTurn() && old(history) <= history && st.accounted == old(st.accounted)
      ensures r.Ok? ==> st.pending == calls[end..] && Fresh(st.pending)
      ensures r.Ok? ==>
                |admitted'| == |executed'| == end
                && Ran(st.executed, cancelled, this.tools, calls[..end], admitted', executed')
      ensures r.Ok? ==> history == before + GroupResults(calls[..end], admitted', executed')
      ensures r.Ok? ==> (SomeEndsTurn(admitted', executed') <==> SomeEndsTurn(admitted, executed) || r.value)
      ensures r.Err? ==> r.error.CommitFailed?
    {
      hide KeepsTask, Log, Coherent, Ids, IsShared, BegunAs, Agent.Group, GroupResults, SomeEndsTurn, Agent.Ran,
           Agent.InTurn;
      ghost var ids, fired, middle := st.executed, cancelled, history;
      admitted', executed' := [], [];
      NextCalls(calls, done, end);
      var one, a, e := RunGroup(calls[done..end], tools[done..end], shared);
      r := one;
      if r.Ok? {
        NextRan(ids, fired, st.executed, cancelled, this.tools, calls, done, end, admitted, executed, a, e, before,
                middle);
        admitted', executed' := admitted + a, executed + e;
      }
    }

    static lemma NextCalls(calls: seq<ToolCall>, done: nat, end: nat)
      requires done < end <= |calls|
      ensures calls[done..end] <= calls[done..] && calls[done..][end - done..] == calls[end..]
                && |calls[done..end]| == end - done
    {
    }

    static lemma NextRan(ids: set<string>, fired: bool, more: set<string>, firedMore: bool, assembled: seq<Tool>,
                         calls: seq<ToolCall>, done: nat, end: nat, admitted: seq<Admitted>,
                           executed: seq<Option<Executed>>,
                         a: seq<Admitted>, e: seq<Option<Executed>>, before: seq<Item>, middle: seq<Item>)
      requires done < end <= |calls| && |admitted| == |executed| == done && |a| == |e| == end - done
      requires ids <= more && (fired ==> firedMore) && Ran(ids, fired, assembled, calls[..done], admitted, executed)
      requires Ran(more, firedMore, assembled, calls[done..end], a, e)
      requires middle == before + GroupResults(calls[..done], admitted, executed)
      ensures Ran(more, firedMore, assembled, calls[..end], admitted + a, executed + e)
      ensures middle + GroupResults(calls[done..end], a, e)
                == before + GroupResults(calls[..end], admitted + a, executed + e)
      ensures SomeEndsTurn(admitted + a, executed + e) <==> SomeEndsTurn(admitted, executed) || SomeEndsTurn(a, e)
    {
      hide Agent.Ran, GroupResults, SomeEndsTurn;
      assert calls[..done] + calls[done..end] == calls[..end];
      RanConcat(ids, fired, more, firedMore, assembled, calls[..done], admitted, executed, calls[done..end], a, e);
      ResultsConcat(calls[..done], admitted, executed, calls[done..end], a, e);
    }

    static lemma NothingRan(ids: set<string>, fired: bool, assembled: seq<Tool>, calls: seq<ToolCall>)
      ensures Ran(ids, fired, assembled, calls[..0], [], []) && GroupResults(calls[..0], [], []) == []
                && !SomeEndsTurn([], [])
    {
    }

    /** A completed response: durable first, then visible, then its calls. What it used is known
        from then on, unless the commit of its timing failed. */
    method TakeResponse(item: AssistantItem, stop: StopReason, usage: Option<Usage>, requestIndex: nat)
      returns (flow: Flow, ghost admitted: seq<Admitted>, ghost executed: seq<Option<Executed>>)
      requires Ready() && st.sent && DistinctIds(Calls(item))
      modifies this`history, this`lastUsage, this`nextSeq, this`journal, this`trace, this`st, this`cancelled,
                this`startedCalls, inbox
      ensures Grows()
      ensures AtRest() && environmentCommitted && (old(st.accounted) ==> st.accounted)
      ensures flow.Continue? || !flow.end.CommitFailed? ==> lastUsage == usage
      ensures !flow.Overflow?
      ensures flow.End? && flow.end.TurnCompleted? ==> flow.end.stop == stop
      ensures flow.End? && flow.end.TurnCompleted? && Calls(item) == [] ==> !stop.Paused? && inbox.queue == []
      ensures flow.Continue? || !flow.end.CommitFailed? ==>
                && |Calls(item)| == |admitted| == |executed|
                  && Ran(st.executed, cancelled, tools, Calls(item), admitted, executed)
                && history == old(history) + [Assistant(item)] + GroupResults(Calls(item), admitted, executed)
                && flow == AfterCalls(item, stop, cancelled, inbox.queue == [], admitted, executed)
      ensures flow.Continue? || !flow.end.CommitFailed? ==> Ready() && Answered()
    {
      hide KeepsTask, Log, Coherent, Ids, Calls, BegunAs, GroupResults, SomeEndsTurn, Agent.Ran;
      var calls := Calls(item);
      admitted, executed := [], [];
      var ok := RecordResponse(item, stop, usage);
      if !ok {
        flow := End(CommitFailed);
        return;
      }
      ok := TimeResponse(usage, requestIndex);
      if !ok {
        InTurnRests();
        flow := End(CommitFailed);
        return;
      }
      if calls == [] {
        InTurnDone();
        NothingRan(st.executed, cancelled, tools, calls);
        assert calls[..0] == calls && history + [] == history;
        flow := if stop.Paused? || inbox.queue != [] then Continue else End(TurnCompleted(stop));
        return;
      }
      var ran;
      ran, admitted, executed := RunCalls(calls);
      InTurnRests();
      if ran.Err? {
        flow := End(ran.error);
        return;
      }
      InTurnDone();
      if cancelled {
        flow := End(TurnCancelled);
        return;
      }
      flow := if ran.value then End(TurnCompleted(stop)) else Continue;
    }

    /** How a turn goes on behind a response: without calls it ends unless the provider paused or a
        message waits; with calls it ends when the token fired or the outcome of one says so. */
    static ghost function AfterCalls(item: AssistantItem, stop: StopReason, fired: bool, noMessages: bool,
                                     admitted: seq<Admitted>, executed: seq<Option<Executed>>): Flow
      requires |admitted| == |executed|
    {
      if Calls(item) == [] then if stop.Paused? || !noMessages then Continue else End(TurnCompleted(stop))
      else if fired then End(TurnCancelled)
      else if SomeEndsTurn(admitted, executed) then End(TurnCompleted(stop))
      else Continue
    }

    method TimeResponse(usage: Option<Usage>, requestIndex: nat) returns (ok: bool)
      requires InTurn()
      modifies this`lastUsage, this`nextSeq, this`journal, this`trace, this`st, this`cancelled, inbox
      ensures Grows()
      ensures InTurn() && st == old(st).(sent := st.sent)
      ensures lastUsage == if ok then usage else old(lastUsage)
    {
      hide KeepsTask, Log, Coherent, Ids, BegunAs;
      ok := CommitRequestTiming(requestIndex);
      if ok {
        Measured(usage);
      }
    }

    method RecordResponse(item: AssistantItem, stop: StopReason, usage: Option<Usage>) returns (ok: bool)
      requires Ready() && st.sent && DistinctIds(Calls(item))
      modifies this`history, this`nextSeq, this`journal, this`trace, this`st, this`cancelled, inbox
      ensures Grows()
      ensures if ok then InTurn() && startedCalls == {} && st.accounted && st.pending == Calls(item) && Fresh(st.pending) else Ready()
      ensures ok ==> history == old(history) + [Assistant(item)]
      ensures old(st.accounted) ==> st.accounted
    {
      hide KeepsTask, Run, Bodies, Coherent, HonoursCancel, CancelledAt, Journals, InboxRecords, Contents,
           DistinctIds, CallsIn, KeepsPending;
      ok := CommitRecord(AssistantCompleted(item, stop, usage), false);
      if ok {
        history := history + [Assistant(item)];
      }
    }

    /** One request: the inbox, the policy, the request itself and what it leads to. */
    method OneRequest(requestIndex: nat) returns (flow: Flow)
      requires Ready()
      modifies this, inbox
      ensures Grows()
      ensures Parts()
      ensures flow.Continue? || !flow.end.CommitFailed? ==> old(inbox.delivered) + old(inbox.queue) <= inbox.delivered
      ensures AtRest() && environmentCommitted
      ensures flow.Continue? || flow.Overflow? || !flow.end.CommitFailed? ==> Ready()
      ensures flow.Continue? || flow.end.TurnCompleted? ==> Answered()
      ensures old(st.accounted) ==> st.accounted
      ensures flow.Overflow? ==> flow.end.ProviderFailed?
    {
      hide KeepsTask, Log, Coherent, Ids, Calls;
      var ok := DeliverInbox();
      if !ok {
        return End(CommitFailed);
      }
      var ended := PrepareContext(requestIndex);
      if ended.Some? {
        return End(ended.value);
      }
      flow := RequestAndRead(requestIndex);
    }

    /** The request, unless the turn was cancelled, and what its stream ends in. */
    method RequestAndRead(requestIndex: nat) returns (flow: Flow)
      requires Ready()
      modifies this, inbox
      ensures Grows()
      ensures Parts()
      ensures AtRest() && environmentCommitted
      ensures flow.Continue? || flow.Overflow? || !flow.end.CommitFailed? ==> Ready()
      ensures flow.Continue? || flow.end.TurnCompleted? ==> Answered()
      ensures old(st.accounted) ==> st.accounted
      ensures flow.Overflow? ==> flow.end.ProviderFailed?
    {
      hide KeepsTask, Log, Coherent, Ids, Calls;
      WaitReady();
      if cancelled {
        var end := EndInterrupted(ByCancel, "", None, false, requestIndex);
        return End(end);
      }
      Send();
      // The stream is read to its terminal event; cancellation wins over an event ready with it.
      WaitReady();
      assert !StreamCancelled("").Completed?;
      var outcome: StreamOutcome :| outcome.Completed? ==> DistinctIds(Calls(outcome.item));
      if cancelled && outcome.Completed? {
        outcome := StreamCancelled("");
      }
      flow := EndRequest(outcome, requestIndex);
    }

    /** What a terminal stream event leads to. */
    method EndRequest(outcome: StreamOutcome, requestIndex: nat) returns (flow: Flow)
      requires Ready() && (outcome.Completed? ==> st.sent && DistinctIds(Calls(outcome.item)))
      modifies this, inbox
      ensures Grows()
      ensures Parts()
      ensures AtRest() && environmentCommitted
      ensures flow.Continue? || flow.Overflow? || !flow.end.CommitFailed? ==> Ready()
      ensures flow.Continue? || flow.end.TurnCompleted? ==> Answered()
      ensures old(st.accounted) ==> st.accounted
      ensures flow.Overflow? ==> flow.end.ProviderFailed?
    {
      hide KeepsTask, Log, Coherent, Ids, Calls;
      match outcome {
        case StreamCancelled(partial) =>
          var end := EndInterrupted(ByCancel, partial, None, true, requestIndex);
          return End(end);
        case StreamFailed(partial, error) =>
          var end := EndInterrupted(ByProvider, partial, Some(error), true, requestIndex);
          return if end.ProviderFailed? && error.contextWindowExceeded then Overflow(end) else End(end);
        case Completed(item, stop, usage) =>
          ghost var admitted, executed;
          flow, admitted, executed := TakeResponse(item, stop, usage, requestIndex);
      }
    }

    /** What the policy's `prepare` answers for this history. */
    method AskPolicy() returns (answer: ContextAnswer)
      requires Linked()
      ensures answer.Replace? && policy.Summarizing? && st.faithful ==> KeepsPending(answer.items, st.pending)
      ensures answer.Replace? && policy.Summarizing? ==> KeepsWords(history, answer.items)
      ensures answer.Replace? && policy.Summarizing? && WellFormed(history) && DistinctCalls(history) ==>
                ReplacementOk(answer.items)
    {
      hide KeepsTask, Run, Bodies, HonoursCancel, CancelledAt, Journals, InboxRecords, Contents, Engine.Trims,
           Engine.Replaces, Engine.NextInput, ReplacementOk, PendingFrom, DistinctCalls, KeepsWords,
           Engine.TrimIsEnough, Engine.AreRequests, Engine.FollowsAnswers, Engine.IsSent, Engine.IsFullTail;
      if policy.AnyPolicy? {
        answer := *;
        return;
      }
      var prepared, requests, answers := Engine.Prepare(policy.config, policy.caps, history, lastUsage);
      match prepared {
        case SendUnchanged => return Unchanged;
        case PrepareCancelled => return GaveUp;
        case PrepareFailed => return PolicyFailed;
        case ReplaceWith(items, usage) =>
          Engine.EnoughTrims(policy.config, history, lastUsage, items);
          if st.faithful {
            StaysPaired(history, st.pending, items, policy.config);
          }
          if WellFormed(history) && DistinctCalls(history) {
            Compaction.PolicyPassesValidation(policy.config, history, items);
          }
          StaysOnTask(history, items, policy.config);
          return Replace(items, usage);
      }
    }

    static lemma StaysOnTask(history: seq<Item>, items: seq<Item>, config: Engine.ContextConfig)
      requires Engine.Trims(config, history, items) || Engine.Replaces(config, history, items)
      ensures KeepsWords(history, items)
    {
      hide Engine.Trims, Engine.Replaces, Compaction.FirstPlain, Compaction.SummaryFirst;
      if Engine.Trims(config, history, items) {
        Compaction.TrimKeepsUsers(config, history, items);
      } else {
        Compaction.ReplacementKeepsTask(config, history, items);
        if Compaction.SummaryFirst(history) { Compaction.ReplacementSummarizesOnce(config, history, items); }
      }
    }

    static lemma StaysPaired(history: seq<Item>, pending: seq<ToolCall>, items: seq<Item>, config: Engine.ContextConfig)
      requires KeepsPending(history, pending)
      requires Engine.Trims(config, history, items) || Engine.Replaces(config, history, items)
      ensures KeepsPending(items, pending)
    {
      hide Engine.Trims, Engine.Replaces, PendingFrom, DistinctCalls;
      if Engine.Trims(config, history, items) {
        Compaction.TrimKeepsPending(config, history, items);
      } else {
        Compaction.ReplacementKeepsPending(config, history, items);
      }
    }

    /** The context policy, raced against the token; `Some` ends the turn. */
    method PrepareContext(requestIndex: nat) returns (ended: Option<TurnEnd>)
      requires Ready()
      modifies this`history, this`nextSeq, this`journal, this`trace, this`st, this`cancelled, inbox
      ensures Grows()
      ensures Parts() && Ready() && st.accounted == old(st.accounted)
      ensures ended.Some? ==> !ended.value.TurnCompleted?
      ensures ended.None? ==> history == old(history) || ReplacementOk(history)
      ensures policy.Summarizing? && old(st.faithful) && ended.Some? && ended.value.ContextFailed? ==>
                ended.value.rejected.None?
    {
      hide KeepsTask, Log, Coherent, Ids, ReplacementOk, KeepsPending;
      WaitReady();
      FaithfulIsWellFormed();
      var answer := AskPolicy();
      if cancelled || answer.GaveUp? {
        var end := EndInterrupted(ByCancel, "", None, false, requestIndex);
        return Some(end);
      }
      match answer {
        case Unchanged =>
        case Replace(items, usage) =>
          var installed := InstallReplacement(items, usage);
          if installed.Err? {
            return Some(installed.error);
          }
        case _ =>
          return Some(ContextFailed(None));
      }
      return None;
    }

    lemma FaithfulIsWellFormed()
      requires Ready()
      ensures st.faithful ==> WellFormed(history) && DistinctCalls(history)
    {
      hide KeepsTask, Run, Bodies, HonoursCancel, CancelledAt, Journals, InboxRecords, Contents, PendingFrom,
           DistinctIds, Ids;
    }

    method WaitReady()
      requires Ready()
      modifies this`cancelled, this`trace, inbox`queue, inbox`nextId, inbox`reserved, inbox`arrived, inbox`withdrawn
      ensures Grows()
      ensures Ready() && st == old(st)
    {
      hide KeepsTask, Run, Bodies, Coherent, HonoursCancel, CancelledAt, Journals, InboxRecords, Contents;
      Await();
    }

    /** The provider is sent the whole current history. */
    method Send()
      requires Ready() && !cancelled
      modifies this`trace, this`st
      ensures Grows()
      ensures Ready() && st.sent && st.accounted == old(st.accounted) && trace == old(trace) + [Requested(history)]
    {
      hide KeepsTask, Run, Bodies, Coherent, HonoursCancel, CancelledAt, Journals, InboxRecords, Contents;
      Emit(Requested(history));
    }

    // ---------------------------------------------------------------- operations between turns

    /** What the policy's `compact_now` answers for this history. */
    method AskForCompaction() returns (answer: CompactionAnswer)
      requires Linked()
      ensures answer.Replaced? && policy.Summarizing? && st.faithful ==> KeepsPending(answer.items, st.pending)
      ensures answer.Replaced? && policy.Summarizing? ==> KeepsWords(history, answer.items)
    {
      hide KeepsTask, Run, Bodies, HonoursCancel, CancelledAt, Journals, InboxRecords, Contents, Engine.Replaces,
           PendingFrom, DistinctCalls, KeepsWords, Engine.AreRequests, Engine.FollowsAnswers, Engine.SummariesExceed,
           Engine.NothingToCompact, Engine.IsFullTail;
      if policy.AnyPolicy? {
        answer := *;
        return;
      }
      var compacted, requests, answers := Engine.CompactNow(policy.config, policy.caps, history);
      match compacted {
        case CompactUnchanged(_) => return NothingToCompact;
        case CompactCancelled => return CompactionCancelled;
        case CompactFailed => return CompactionFailed;
        case Compacted(items, usage, _, _) =>
          if st.faithful {
            StaysPaired(history, st.pending, items, policy.config);
          }
          StaysOnTask(history, items, policy.config);
          return Replaced(items, usage);
      }
    }

    /** Manual compaction: the environment becomes durable before it if it is not yet, and the
        replacement is validated and journalled as any other. */
    method CompactNow() returns (answer: CompactionAnswer)
      requires AtRest()
      modifies this`history, this`environmentCommitted, this`lastUsage, this`nextSeq, this`journal, this`trace,
                this`st, this`cancelled, inbox
      ensures Grows()
      ensures AtRest() && Parts()
      ensures startedCalls == old(startedCalls) && st.pending == old(st.pending)
      ensures old(environmentCommitted) ==> environmentCommitted
      ensures lastUsage == if answer.Replaced? then None else old(lastUsage)
      ensures answer.Replaced? ==> history == answer.items && ReplacementOk(history)
      ensures !answer.Replaced? ==> history == old(history) && st.faithful == old(st.faithful)
      ensures answer.Replaced? ==> (st.faithful <==> old(st.faithful) && KeepsPending(answer.items, st.pending))
      ensures st.accounted <==>
                old(st.accounted) && (answer.Replaced? ==> st.pending == [] || Unresolved(history) == st.pending)
    {
      hide KeepsTask, Log, Coherent, KeepsPending, ReplacementOk, Unresolved, KeepsWords, BegunAs;
      WaitAtRest();
      answer := AskForCompaction();
      if cancelled {
        return CompactionCancelled;
      }
      if answer.Replaced? {
        var ok := InstallCompaction(answer.items, answer.usage);
        if !ok {
          return CompactionFailed;
        }
      }
    }

    method InstallCompaction(items: seq<Item>, usage: Option<Usage>) returns (ok: bool)
      requires AtRest()
      requires policy.Summarizing? && st.faithful ==> KeepsPending(items, st.pending)
      requires policy.Summarizing? ==> KeepsWords(history, items)
      modifies this`history, this`environmentCommitted, this`lastUsage, this`nextSeq, this`journal, this`trace,
                this`st, this`cancelled, inbox
      ensures Grows()
      ensures AtRest() && Parts()
      ensures startedCalls == old(startedCalls) && st.pending == old(st.pending)
      ensures old(environmentCommitted) ==> environmentCommitted
      ensures lastUsage == if ok then None else old(lastUsage)
      ensures if ok then history == items && ReplacementOk(items)
                else history == old(history) && st.faithful == old(st.faithful)
      ensures ok ==> (st.faithful <==> old(st.faithful) && KeepsPending(items, st.pending))
      ensures st.accounted <==> old(st.accounted) && (ok ==> st.pending == [] || Unresolved(items) == st.pending)
    {
      hide KeepsTask, Log, Coherent, KeepsPending, ReplacementOk, Unresolved, KeepsWords, BegunAs;
      ok := CommitEnvironmentIfNeeded();
      if !ok {
        return;
      }
      var installed := InstallReplacement(items, usage);
      if installed.Err? {
        return false;
      }
      // It measured the history that was just replaced.
      Measured(None);
    }

    method Measured(usage: Option<Usage>)
      requires Log()
      modifies this`lastUsage
      ensures Log() && lastUsage == usage
    {
      hide KeepsTask, Run, Bodies, Coherent, HonoursCancel, CancelledAt, Journals, InboxRecords, Contents;
      lastUsage := usage;
    }

    method WaitAtRest()
      requires AtRest()
      modifies this`cancelled, this`trace, inbox`queue, inbox`nextId, inbox`reserved, inbox`arrived, inbox`withdrawn
      ensures Grows()
      ensures AtRest()
    {
      hide KeepsTask, Run, Bodies, Coherent, HonoursCancel, CancelledAt, Journals, InboxRecords, Contents;
      Await();
    }

    /** A switch to other parts: checked, then durable, then in effect. */
    method Reconfigure(next: Assembly, nextTools: seq<Tool>, nextPolicy: Policy)
      returns (r: Result<(), ReconfigureError>)
      requires AtRest()
      modifies this, inbox
      ensures Grows()
      ensures AtRest() && history == old(history)
      ensures startedCalls == old(startedCalls) && st == old(st).(environment := st.environment, sent := st.sent)
      ensures r.Ok? ==> environmentCommitted && assembly == next && tools == nextTools && DistinctNames(nextTools)
      ensures policy == if r.Ok? then nextPolicy else old(policy)
      ensures base == old(base) && maxParallel == old(maxParallel) && maxOverflowRetries == old(maxOverflowRetries)
      ensures r.Ok? ==> |journal| == |old(journal)| + 1 && journal[|old(journal)|].body == Environment(next)
      ensures r.Err? ==> Parts() && journal == old(journal) && environmentCommitted == old(environmentCommitted)
      ensures !DistinctNames(nextTools) ==> r.Err? && r.error.Rejected? && r.error.build.DuplicateToolName?
      ensures r.Err? && r.error.Rejected? ==> trace == old(trace)
    {
      hide KeepsTask, Log, Coherent, KeepsPending, BegunAs, Unresolved, Finish, DistinctNames;
      var checked := CheckEnvironment(nextTools);
      if checked.Err? {
        return Err(Rejected(checked.error));
      }
      hide Step;
      EnvironmentStep(st, next);
      var ok := CommitRecord(Environment(next), false);
      if !ok {
        return Err(EnvironmentNotCommitted);
      }
      Install(next, nextTools, nextPolicy);
      return Ok(());
    }

    method Install(next: Assembly, nextTools: seq<Tool>, nextPolicy: Policy)
      requires AtRest() && st.environment
      modifies this`assembly, this`tools, this`policy, this`environmentCommitted
      ensures AtRest() && environmentCommitted && assembly == next && tools == nextTools && policy == nextPolicy
    {
      hide KeepsTask, Run, Bodies, Coherent, HonoursCancel, CancelledAt, Journals, InboxRecords, Contents,
           KeepsPending;
      assembly, tools, policy := next, nextTools, nextPolicy;
      environmentCommitted := true;
    }

    // ---------------------------------------------------------------- turns

    /** The request loop, for the first `requests` requests of the turn; `None` while the turn
        would go on. */
    method RequestLoop(requests: nat) returns (end: Option<TurnEnd>)
      requires Ready()
      modifies this, inbox
      ensures Grows()
      ensures AtRest() && environmentCommitted && Parts()
      ensures end.None? || !end.value.CommitFailed? ==> Ready()
      ensures end.Some? && end.value.TurnCompleted? ==> Answered()
      ensures old(st.accounted) ==> st.accounted
    {
      hide KeepsTask, Log, Coherent;
      var requestIndex: nat, overflowRetries, left := 0, 0, requests;
      while left > 0
        invariant Grows()
        invariant Ready() && Parts() && (old(st.accounted) ==> st.accounted)
      {
        left := left - 1;
        var flow := OneRequest(requestIndex);
        match flow {
          case Continue =>
            requestIndex, overflowRetries := WrappingNext(requestIndex), 0;
          case Overflow(failure) =>
            if overflowRetries >= maxOverflowRetries {
              return Some(failure);
            }
            var answer := CompactNow();
            if !answer.Replaced? {
              return Some(failure);
            }
            requestIndex, overflowRetries := WrappingNext(requestIndex), overflowRetries + 1;
          case End(last) =>
            return Some(last);
        }
      }
      return None;
    }

    /** One turn: the environment, reconciliation, the input, then the request loop. */
    method RunInner(input: Option<TurnInput>, requests: nat) returns (end: Option<TurnEnd>)
      requires AtRest()
      modifies this, inbox
      ensures Grows()
      ensures AtRest() && Parts()
      ensures end.None? || !end.value.CommitFailed? ==> Ready()
      ensures end.Some? && end.value.TurnCompleted? ==> Answered()
      ensures (end.None? || !end.value.CommitFailed?) && input.Some? ==>
                Journalled(|old(journal)|, RecordOf(input.value))
      ensures (end.None? || !end.value.CommitFailed?) && !old(environmentCommitted) ==>
                BeginsWith(|old(journal)|, Environment(assembly))
    {
      hide KeepsTask, Log, Coherent, BegunAs;
      BeginTurn();
      var ok := OpenTurn(input);
      if !ok {
        return Some(CommitFailed);
      }
      end := RequestLoop(requests);
    }

    /** What a turn records before its first request. */
    method OpenTurn(input: Option<TurnInput>) returns (ok: bool)
      requires AtRest()
      modifies this, inbox
      ensures Grows()
      ensures AtRest() && Parts()
      ensures ok ==> Ready() && (input.Some? ==> Journalled(|old(journal)|, RecordOf(input.value)))
      ensures ok && !old(environmentCommitted) ==> BeginsWith(|old(journal)|, Environment(assembly))
    {
      hide KeepsTask, Log, Coherent, BegunAs, Unresolved, Agent.ReconciledItems, Agent.RecordsOnly;
      ok := CommitEnvironmentIfNeeded();
      if !ok {
        return;
      }
      ok := ReconcileUnresolvedCalls();
      if ok && input.Some? {
        ok := RecordInput(input.value);
      }
    }

    method RecordInput(input: TurnInput) returns (ok: bool)
      requires Ready()
      modifies this`history, this`nextSeq, this`journal, this`trace, this`st, this`cancelled, inbox
      ensures Grows()
      ensures Ready()
      ensures ok ==> history == old(history) + [ItemOf(input)] && Journalled(|old(journal)|, RecordOf(input))
      ensures !ok ==> history == old(history)
    {
      hide KeepsTask, Run, Bodies, Coherent, HonoursCancel, CancelledAt, Journals, InboxRecords, Contents,
           KeepsPending;
      ok := CommitRecord(RecordOf(input), false);
      if ok {
        assert journal[|old(journal)|].body == RecordOf(input);
        history := history + [ItemOf(input)];
      }
    }

    /** The record behind the first `from` ones has this body. */
    ghost predicate BeginsWith(from: nat, body: RecordBody)
      reads this`journal
    {
      from < |journal| && journal[from].body == body
    }

    /** A record with this body became durable behind the first `from` ones. */
    ghost predicate Journalled(from: nat, body: RecordBody)
      reads this`journal
    {
      exists i :: from <= i < |journal| && journal[i].body == body
    }

    // ---------------------------------------------------------------- what a host calls

    method RunTurn(text: string, requests: nat) returns (end: Option<TurnEnd>)
      requires AtRest()
      modifies this, inbox
      ensures Grows()
      ensures AtRest() && Parts()
      ensures end.None? || !end.value.CommitFailed? ==> Ready() && Journalled(|old(journal)|, UserInputRecord(text))
      ensures (end.None? || !end.value.CommitFailed?) && !old(environmentCommitted) ==>
                BeginsWith(|old(journal)|, Environment(assembly))
      ensures end.Some? && end.value.TurnCompleted? ==> Answered()
    {
      end := RunInner(Some(TurnInput.Text(text)), requests);
    }

    method RunContentTurn(blocks: seq<UserBlock>, requests: nat) returns (end: Option<TurnEnd>)
      requires AtRest()
      modifies this, inbox
      ensures Grows()
      ensures AtRest() && Parts()
      ensures end.None? || !end.value.CommitFailed? ==> Ready() && Journalled(|old(journal)|, UserContentRecord(blocks))
      ensures (end.None? || !end.value.CommitFailed?) && !old(environmentCommitted) ==>
                BeginsWith(|old(journal)|, Environment(assembly))
      ensures end.Some? && end.value.TurnCompleted? ==> Answered()
    {
      end := RunInner(Some(TurnInput.Content(blocks)), requests);
    }

    /** A turn for queued messages only: without any it does nothing at all. */
    method RunInboxTurn(requests: nat) returns (ran: bool, end: Option<TurnEnd>)
      requires AtRest()
      modifies this, inbox
      ensures Grows()
      ensures AtRest() && Parts()
      ensures ran <==> old(inbox.queue) != []
      ensures !ran ==> trace == old(trace) && inbox.queue == []
      ensures ran && (end.None? || !end.value.CommitFailed?) ==> Ready()
      ensures ran && end.Some? && end.value.TurnCompleted? ==> Answered()
    {
      if inbox.queue == [] {
        return false, None;
      }
      end := RunInner(None, requests);
      return true, end;
    }

    method ResumeTurn(requests: nat) returns (end: Option<TurnEnd>)
      requires AtRest()
      modifies this, inbox
      ensures Grows()
      ensures AtRest() && Parts()
      ensures end.None? || !end.value.CommitFailed? ==> Ready()
      ensures end.Some? && end.value.TurnCompleted? ==> Answered()
    {
      end := RunInner(None, requests);
    }

    /** Manual compaction, with a token of its own. */
    method Compact() returns (answer: CompactionAnswer)
      requires AtRest()
      modifies this, inbox
      ensures Grows()
      ensures AtRest() && Parts()
      ensures st.pending == old(st.pending)
      ensures answer.Replaced? ==> history == answer.items && ReplacementOk(history)
      ensures !answer.Replaced? ==> history == old(history)
    {
      BeginTurn();
      answer := CompactNow();
    }

    method SetMaxParallelTools(limit: NonZero)
      requires AtRest()
      modifies this`maxParallel
      ensures AtRest() && maxParallel == limit
    {
      maxParallel := limit;
    }

    method SetMaxOverflowRetries(limit: nat)
      requires AtRest()
      modifies this`maxOverflowRetries
      ensures AtRest() && maxOverflowRetries == limit
    {
      maxOverflowRetries := limit;
    }

    /** The journal is append-only, and so are what happened and what was delivered; a
        summarizing policy keeps every history answerable; each call begins as its assembled tool
        describes it, within the agent's bound. */
    twostate predicate Grows()
      reads this, inbox
    {
      && old(journal) <= journal && old(trace) <= trace && old(inbox.delivered) <= inbox.delivered
      && (old(policy).Summarizing? && old(st).faithful ==> st.faithful)
      && (old(policy).Summarizing? && KeepsTask(old(journal)) ==> KeepsTask(journal))
      && forall k :: |old(trace)| <= k < |trace| ==> BegunAs(trace[k], old(tools), old(maxParallel))
    }

    /** Records became durable and the token may have fired; nothing was asked or executed. */
    twostate predicate RecordsOnly()
      reads this
    {
      forall k :: |old(trace)| <= k < |trace| ==> trace[k].Committed? || trace[k].CancelFired?
    }

    twostate predicate Parts()
      reads this
    {
      tools == old(tools) && assembly == old(assembly) && maxParallel == old(maxParallel)
      && maxOverflowRetries == old(maxOverflowRetries) && base == old(base) && policy == old(policy)
    }
  }
}
