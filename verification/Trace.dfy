/** What one agent does, seen from outside: the records it commits, the requests it sends and
    the calls it permits and executes, in order. `Run` says which of these traces keep the
    commit boundaries of journal.rs; the lemmas below say what every such trace has. */
module Trace {
  import opened Contracts
  import opened Transcript

  const UNKNOWN_OUTCOME := "Interrupted: this call was started before the session stopped and its outcome is unknown. Check the current state before retrying."
  const CANCELLED_BEFORE_EXECUTION := "Cancelled before execution."

  datatype Event =
    /** A record became durable; `reconciling` marks those that answer calls left open earlier. */
    | Committed(body: RecordBody, reconciling: bool)
    /** A request with this history was handed to the provider. */
    | Requested(history: seq<Item>)
    /** The authorization policy permitted the call. */
    | Permitted(call: ToolCall)
    /** The call's tool, which says this of the call, started to execute while at most `limit` may. */
    | Began(call: ToolCall, concurrency: Concurrency, effect: Effect, limit: nat)
    | Returned(call: ToolCall)
    /** A turn began, with its own cancellation token. */
    | TurnBegan(cancelled: bool)
    /** The turn's token was cancelled. */
    | CancelFired
    /** The process ended; what ran in it is gone. */
    | Crashed

  /** What a trace has led to. `calls` are the calls of the last completed response, `pending`
      those without a `ToolFinished`. `accounted` holds while what was recorded since that
      response answers its calls and nothing else: from the response on, until a replaced history
      loses calls that wait or brings calls of its own that are then answered. `faithful` holds
      while every replaced history so far kept the pending calls pending; `sent` while the last
      request still awaits its end. */
  datatype State = State(
    history: seq<Item>, calls: seq<ToolCall>, pending: seq<ToolCall>,
    permitted: set<string>, started: set<string>, executed: set<string>,
    running: set<string>, overlapping: bool, environment: bool, accounted: bool, faithful: bool, sent: bool)

  const INITIAL := State([], [], [], {}, {}, {}, {}, true, false, true, true, false)

  /** A call may overlap others only when its tool says so, it neither writes nor delegates, and
      more than one may run. */
  predicate MayOverlap(concurrency: Concurrency, effect: Effect, limit: nat) {
    limit > 1 && concurrency.Shared? && !effect.WritesFiles? && !effect.Delegates?
  }

  predicate Overlaps(e: Event) {
    e.Began? && MayOverlap(e.concurrency, e.effect, e.limit)
  }

  /** Nothing runs, and nothing the last response asked for is unanswered. */
  predicate Quiet(s: State) {
    s.running == {} && (s.accounted ==> s.pending == [])
  }

  predicate NotExecutedStatus(status: ToolStatus) {
    status.Cancelled? || status.Unavailable? || status.Denied?
  }

  /** What reconciliation records for a call: unknown exactly when its `ToolStarted` is durable. */
  function Reconciled(call: ToolCall, started: bool): ToolResultItem {
    if started then ToolResultItem(call.callId, call.name, ToolStatus.Unknown, UNKNOWN_OUTCOME)
    else ToolResultItem(call.callId, call.name, ToolStatus.Cancelled, CANCELLED_BEFORE_EXECUTION)
  }

  /** The calls a replacement brought are what the history leaves unresolved, or nothing is known
      of them. */
  predicate BroughtIn(s: State) {
    !s.accounted || (s.pending == [] && Unresolved(s.history) != [])
  }

  /** A result that claims no execution: the call was started, or it was not. */
  predicate IsReconciled(result: ToolResultItem) {
    var call := ToolCall(result.callId, result.name, Json(""));
    result == Reconciled(call, true) || result == Reconciled(call, false)
  }

  ghost function Finish(s: State, result: ToolResultItem, reconciling: bool): Option<State> {
    var next := s.(history := s.history + [ToolResult(result)], sent := false);
    if s.running != {} then None
    else if reconciling && BroughtIn(s) then
      if IsReconciled(result) then Some(next.(accounted := false)) else None
    else if s.pending == [] || result.callId != s.pending[0].callId || result.name != s.pending[0].name then None
    else if reconciling && result != Reconciled(s.pending[0], result.callId in s.started) then None
    else if !reconciling && result.callId !in s.executed && !NotExecutedStatus(result.status) then None
    else if !reconciling && result.callId in s.started && result.callId !in s.executed && !result.status.Cancelled? then None
    else Some(next.(pending := s.pending[1..]))
  }

  ghost function Commit(before: State, body: RecordBody, reconciling: bool): Option<State> {
    var s := before.(sent := false);
    if s.running != {} || (!s.environment && !body.Environment?) then None
    else match body
      case Environment(_) => Some(s.(environment := true))
      case UserInputRecord(text) => if Quiet(s) then Some(s.(history := s.history + [User(text)])) else None
      case UserContentRecord(blocks) => if Quiet(s) then Some(s.(history := s.history + [UserContent(blocks)]))
        else None
      case InboxRecord(kind, text) => if Quiet(s) then Some(s.(history := s.history + [Inbox(kind, text)])) else None
      case AssistantCompleted(item, _, _) =>
        if before.sent && Quiet(s) && DistinctIds(Calls(item))
        then Some(State(s.history + [Assistant(item)], Calls(item), Calls(item), {}, {}, {}, {}, true, true, true, s.faithful, false))
        else None
      case AssistantInterrupted(_, _, _) => if Quiet(s) then Some(s) else None
      case ToolStarted(id, _) =>
        if id in s.permitted && id !in s.started && id in Ids(s.pending) then Some(s.(started := s.started + {id})) else None
      case ToolFinished(result, _) => Finish(s, result, reconciling)
      case ContextReplaced(items, _) =>
        Some(s.(history := items,
                accounted := s.accounted && (s.pending == [] || Unresolved(items) == s.pending),
                faithful := s.faithful && KeepsPending(items, s.pending)))
      case RequestTiming(_) => Some(s)
  }

  ghost function Step(s: State, e: Event): Option<State> {
    match e
    case Committed(body, reconciling) => Commit(s, body, reconciling)
    case Requested(history) => if Quiet(s) && s.environment && history == s.history then Some(s.(sent := true))
      else None
    case Permitted(call) =>
      if s.running == {} && call in s.pending && call.callId !in s.permitted
      then Some(s.(permitted := s.permitted + {call.callId})) else None
    case Began(call, _, _, limit) =>
      if call in s.pending && call.callId in s.started && call.callId !in s.executed
         && |s.running| < limit && (s.running == {} || (Overlaps(e) && s.overlapping))
      then Some(s.(executed := s.executed + {call.callId}, running := s.running + {call.callId}, overlapping := Overlaps(e)))
      else None
    case Returned(call) =>
      if call.callId in s.running then Some(s.(running := s.running - {call.callId})) else None
    case TurnBegan(_) => Some(s)
    case CancelFired => Some(s)
    case Crashed => Some(s.(running := {}, sent := false))
  }

  ghost function Run(trace: seq<Event>): Option<State> {
    if trace == [] then Some(INITIAL)
    else
      var before := Run(trace[..|trace| - 1]);
      if before.Some? then Step(before.value, trace[|trace| - 1]) else None
  }

  function Bodies(trace: seq<Event>): seq<RecordBody> {
    if trace == [] then []
    else
      var before := Bodies(trace[..|trace| - 1]);
      var e := trace[|trace| - 1];
      if e.Committed? then before + [e.body] else before
  }

  /** The model-visible history a journal projects to. */
  function Apply(history: seq<Item>, body: RecordBody): seq<Item> {
    match body
    case UserInputRecord(text) => history + [User(text)]
    case UserContentRecord(blocks) => history + [UserContent(blocks)]
    case InboxRecord(kind, text) => history + [Inbox(kind, text)]
    case AssistantCompleted(item, _, _) => history + [Assistant(item)]
    case ToolFinished(result, _) => history + [ToolResult(result)]
    case ContextReplaced(items, _) => items
    case _ => history
  }

  function HistoryOf(bodies: seq<RecordBody>): seq<Item> {
    if bodies == [] then [] else Apply(HistoryOf(bodies[..|bodies| - 1]), bodies[|bodies| - 1])
  }

  // ------------------------------------------------------------------ extending a trace

  lemma {:induction false} RunAppend(trace: seq<Event>, e: Event)
    ensures Run(trace + [e]) == if Run(trace).Some? then Step(Run(trace).value, e) else None
    ensures Bodies(trace + [e]) == Bodies(trace) + if e.Committed? then [e.body] else []
  {
    assert (trace + [e])[..|trace + [e]| - 1] == trace;
  }

  /** A trace can stop anywhere: every prefix of an allowed trace is allowed. */
  lemma {:induction false} RunPrefix(trace: seq<Event>, n: nat)
    requires n <= |trace| && Run(trace).Some?
    ensures Run(trace[..n]).Some?
    ensures n < |trace| ==> Step(Run(trace[..n]).value, trace[n]).Some?
    ensures n < |trace| ==> Run(trace[..n + 1]) == Step(Run(trace[..n]).value, trace[n])
  {
    hide Step;
    if n == |trace| {
      assert trace[..n] == trace;
    } else {
      var m := |trace| - 1;
      if n == m {
        assert trace[..n + 1] == trace;
      } else {
        RunPrefix(trace[..m], n);
        assert trace[..m][..n] == trace[..n] && trace[..m][..n + 1] == trace[..n + 1];
      }
    }
  }

  // ------------------------------------------------------------------ laws of every trace

  /** Only records change what the agent knows; effects change what is permitted and running. */
  lemma {:induction false} EffectKeeps(s: State, e: Event)
    requires Step(s, e).Some? && !e.Committed?
    ensures var t := Step(s, e).value;
            t.history == s.history && t.calls == s.calls && t.pending == s.pending && t.started == s.started
            && t.environment == s.environment && t.accounted == s.accounted && t.faithful == s.faithful
  {
    hide Commit, MayOverlap;
  }

  lemma {:induction false} CommitKeeps(s: State, body: RecordBody, reconciling: bool)
    requires Step(s, Committed(body, reconciling)).Some?
    ensures var t := Step(s, Committed(body, reconciling)).value;
            t.running == {} && t.environment && t.history == Apply(s.history, body)
            && (s.environment || body.Environment?)
  {
    hide KeepsPending, DistinctIds, Ids, Reconciled, Unresolved, IsReconciled;
  }

  /** Only a replacement that loses a pending call ends faithfulness. */
  lemma {:induction false} CommitFaithful(s: State, body: RecordBody, reconciling: bool)
    requires Step(s, Committed(body, reconciling)).Some?
    ensures var t := Step(s, Committed(body, reconciling)).value;
            t.faithful <==> s.faithful && (body.ContextReplaced? ==> KeepsPending(body.items, s.pending))
  {
    hide KeepsPending, DistinctIds, Ids, Reconciled, Unresolved, IsReconciled;
  }

  /** What was faithful in the end was faithful all along. */
  lemma {:induction false} FaithfulBefore(trace: seq<Event>, n: nat)
    requires Run(trace).Some? && Run(trace).value.faithful && n <= |trace|
    ensures Run(trace[..n]).Some? && Run(trace[..n]).value.faithful
  {
    hide Step, Run;
    if n == |trace| {
      assert trace[..n] == trace;
    } else {
      var m := |trace| - 1;
      RunPrefix(trace, m);
      assert trace[..m + 1] == trace;
      StepAccount(Run(trace[..m]).value, trace[m], "");
      FaithfulBefore(trace[..m], n);
      assert trace[..m][..n] == trace[..n];
    }
  }

  /** What the state of every allowed trace satisfies. */
  ghost predicate Coherent(s: State) {
    && DistinctIds(s.calls)
    && |s.pending| <= |s.calls| && s.pending == s.calls[|s.calls| - |s.pending|..]
    && s.running <= s.executed <= s.started <= s.permitted <= Ids(s.calls)
    && (s.faithful ==> s.accounted && KeepsPending(s.history, s.pending))
    && (s.accounted && s.pending != [] ==> Unresolved(s.history) == s.pending)
  }

  /** What a faithful state lacks is what its history lacks. */
  lemma {:induction false} FaithfulIsAccounted(s: State)
    requires Coherent(s) && s.faithful
    ensures s.accounted && Unresolved(s.history) == s.pending
  {
    hide Unresolved, PendingFrom, DistinctIds, Ids;
    UnresolvedIsPending(s.history);
  }

  lemma {:induction false} AppendKeeps(history: seq<Item>, pending: seq<ToolCall>, item: Item)
    requires KeepsPending(history, pending) && Advance(pending, item).Some?
    requires item.Assistant? ==> DistinctIds(Calls(item.assistant))
    ensures KeepsPending(history + [item], Advance(pending, item).value)
  {
    hide PendingFrom;
    PendingAppend(history, item);
  }

  lemma {:induction false} FinishCoherent(s: State, result: ToolResultItem, reconciling: bool)
    requires Coherent(s) && Finish(s, result, reconciling).Some?
    ensures Coherent(Finish(s, result, reconciling).value)
  {
    hide KeepsPending, Unresolved, DistinctIds, Ids, Without, IsReconciled, Reconciled;
    if s.faithful {
      FaithfulIsAccounted(s);
      AppendKeeps(s.history, s.pending, ToolResult(result));
    }
    if s.accounted && s.pending != [] {
      UnresolvedAppend(s.history, ToolResult(result));
      SuffixDistinct(s.calls, |s.calls| - |s.pending|);
      WithoutFirst(s.pending);
    }
  }

  lemma {:induction false} SuffixDistinct(calls: seq<ToolCall>, n: nat)
    requires DistinctIds(calls) && n <= |calls|
    ensures DistinctIds(calls[n..])
  {
  }

  /** An input or a response joins a history in which nothing is pending. */
  lemma {:induction false} InputCoherent(s: State, body: RecordBody, item: Item)
    requires Coherent(s) && Quiet(s) && Apply(s.history, body) == s.history + [item]
    requires !item.ToolResult? && !item.Assistant?
    ensures Coherent(s.(history := s.history + [item], sent := false))
  {
    hide KeepsPending, DistinctIds, Ids, Apply, Unresolved;
    if s.faithful {
      AppendKeeps(s.history, [], item);
    }
  }

  lemma {:induction false} CommitCoherent(s: State, body: RecordBody, reconciling: bool)
    requires Coherent(s) && Commit(s, body, reconciling).Some?
    ensures Coherent(Commit(s, body, reconciling).value)
  {
    match body {
      case ToolFinished(result, _) =>
        hide Coherent, Finish;
        FinishCoherent(s, result, reconciling);
      case UserInputRecord(text) =>
        hide Coherent;
        InputCoherent(s, body, User(text));
      case UserContentRecord(blocks) =>
        hide Coherent;
        InputCoherent(s, body, UserContent(blocks));
      case InboxRecord(kind, text) =>
        hide Coherent;
        InputCoherent(s, body, Inbox(kind, text));
      case AssistantCompleted(item, _, _) =>
        hide Coherent, Commit;
        ResponseCoherent(s, body, reconciling);
      case ContextReplaced(_, _) =>
        hide Coherent, Commit;
        ReplacementCoherent(s, body, reconciling);
      case _ =>
        hide Coherent, Commit;
        OtherCoherent(s, body, reconciling);
    }
  }

  lemma {:induction false} ResponseCoherent(s: State, body: RecordBody, reconciling: bool)
    requires Coherent(s) && Commit(s, body, reconciling).Some? && body.AssistantCompleted?
    ensures Coherent(Commit(s, body, reconciling).value)
  {
    hide KeepsPending, DistinctIds, Ids, CallsIn, Unresolved;
    UnresolvedAppend(s.history, Assistant(body.item));
    if s.faithful { AppendKeeps(s.history, [], Assistant(body.item)); }
  }

  lemma {:induction false} OtherCoherent(s: State, body: RecordBody, reconciling: bool)
    requires Coherent(s) && Commit(s, body, reconciling).Some?
    requires body.Environment? || body.AssistantInterrupted? || body.ToolStarted? || body.RequestTiming?
    ensures Coherent(Commit(s, body, reconciling).value)
  {
    hide KeepsPending, DistinctIds, CallsIn, Unresolved;
  }

  lemma {:induction false} ReplacementCoherent(s: State, body: RecordBody, reconciling: bool)
    requires Coherent(s) && Commit(s, body, reconciling).Some? && body.ContextReplaced?
    ensures Coherent(Commit(s, body, reconciling).value)
  {
    hide DistinctIds, CallsIn, Unresolved, PendingFrom, DistinctCalls;
    if KeepsPending(body.items, s.pending) {
      UnresolvedIsPending(body.items);
    }
  }

  lemma {:induction false} StepCoherent(s: State, e: Event)
    requires Coherent(s) && Step(s, e).Some?
    ensures Coherent(Step(s, e).value)
  {
    if e.Committed? {
      hide Coherent, Commit;
      CommitCoherent(s, e.body, e.reconciling);
    } else {
      EffectCoherent(s, e);
    }
  }

  lemma {:induction false} EffectCoherent(s: State, e: Event)
    requires Coherent(s) && Step(s, e).Some? && !e.Committed?
    ensures Coherent(Step(s, e).value)
  {
    hide KeepsPending, DistinctIds, Commit, Unresolved, MayOverlap;
    if e.Permitted? {
      assert e.call in s.calls;
    }
  }

  lemma {:induction false} InitialCoherent()
    ensures Coherent(INITIAL)
  {
    assert Pending([]) == Some([]);
  }

  lemma {:induction false} RunCoherent(trace: seq<Event>)
    requires Run(trace).Some?
    ensures Coherent(Run(trace).value)
  {
    hide Step, Coherent;
    if trace != [] {
      var m := |trace| - 1;
      RunCoherent(trace[..m]);
      StepCoherent(Run(trace[..m]).value, trace[m]);
    } else {
      InitialCoherent();
    }
  }

  /** In-memory state is the journal's projection: after any allowed trace the history is
      the one its records project to, and the first record is the environment. */
  lemma {:induction false} HistoryIsProjection(trace: seq<Event>)
    requires Run(trace).Some?
    ensures Run(trace).value.history == HistoryOf(Bodies(trace))
    ensures Run(trace).value.environment <==> Bodies(trace) != []
    ensures Bodies(trace) != [] ==> Bodies(trace)[0].Environment?
  {
    if trace != [] {
      hide Step, Apply, Bodies, Run;
      var m := |trace| - 1;
      HistoryIsProjection(trace[..m]);
      assert trace == trace[..m] + [trace[m]];
      RunAppend(trace[..m], trace[m]);
      RunPrefix(trace, m);
      var b, s := Bodies(trace[..m]), Run(trace[..m]).value;
      if trace[m].Committed? {
        assert (b + [trace[m].body])[..|b|] == b;
        CommitKeeps(s, trace[m].body, trace[m].reconciling);
      } else {
        assert b + [] == b;
        EffectKeeps(s, trace[m]);
      }
    }
  }

  /** Every request carries the projection of what is durable by then; while replacements keep
      pending calls, that history is a well-formed transcript. */
  lemma {:induction false} RequestsAreWellFormed(trace: seq<Event>, k: nat)
    requires Run(trace).Some? && k < |trace| && trace[k].Requested?
    ensures trace[k].history == HistoryOf(Bodies(trace[..k]))
    ensures Run(trace[..k]).Some?
    ensures Run(trace[..k]).value.faithful ==> WellFormed(trace[k].history)
  {
    hide Run, PendingFrom, Commit, HistoryOf, Bodies;
    RunPrefix(trace, k);
    HistoryIsProjection(trace[..k]);
    RunCoherent(trace[..k]);
  }

  predicate IsReplacement(e: Event) {
    e.Committed? && e.body.ContextReplaced?
  }

  /** Without replacements nothing is ever lost. */
  lemma {:induction false} UnreplacedIsFaithful(trace: seq<Event>, n: nat)
    requires Run(trace).Some? && n <= |trace|
    requires forall i :: 0 <= i < n ==> !IsReplacement(trace[i])
    ensures Run(trace[..n]).Some? && Run(trace[..n]).value.faithful
  {
    hide Step;
    RunPrefix(trace, n);
    if n > 0 {
      UnreplacedIsFaithful(trace, n - 1);
      RunPrefix(trace, n - 1);
      var s, e := Run(trace[..n - 1]).value, trace[n - 1];
      if e.Committed? {
        CommitFaithful(s, e.body, e.reconciling);
      } else {
        EffectKeeps(s, e);
      }
    }
  }

  /** Before the first replacement every request is a well-formed transcript, whatever policy is
      asked. */
  lemma {:induction false} UnreplacedRequestsAreWellFormed(trace: seq<Event>, k: nat)
    requires Run(trace).Some? && k < |trace| && trace[k].Requested?
    requires forall i :: 0 <= i < k ==> !IsReplacement(trace[i])
    ensures WellFormed(trace[k].history)
  {
    hide Run, Step, PendingFrom, HistoryOf, Bodies, IsReplacement;
    UnreplacedIsFaithful(trace, k);
    RequestsAreWellFormed(trace, k);
  }

  /** A response answers the request before it, and joins exactly the history that was sent:
      nothing is recorded in between. */
  lemma {:induction false} ResponseAnswersItsRequest(trace: seq<Event>, i: nat)
    requires Run(trace).Some? && i < |trace| && IsResponse(trace[i])
    ensures exists k :: 0 <= k < i && trace[k].Requested? && trace[k].history == HistoryOf(Bodies(trace[..i]))
                        && NoRecord(trace, k + 1, i)
  {
    hide Run, Step, Bodies, HistoryOf;
    RunPrefix(trace, i);
    ResponseWhen(Run(trace[..i]).value, trace[i]);
    SentMeansRequested(trace, i);
    HistoryIsProjection(trace[..i]);
  }

  lemma {:induction false} ResponseWhen(s: State, e: Event)
    requires Step(s, e).Some? && IsResponse(e)
    ensures s.sent
  {
    hide KeepsPending, DistinctIds, Unresolved;
  }

  lemma {:induction false} StepSent(s: State, e: Event)
    requires Step(s, e).Some? && Step(s, e).value.sent
    ensures Step(s, e).value.history == s.history
    ensures if e.Requested? then e.history == s.history else s.sent && !e.Committed?
  {
    hide KeepsPending, DistinctIds, Ids, Reconciled, Unresolved, IsReconciled, MayOverlap;
  }

  lemma {:induction false} SentMeansRequested(trace: seq<Event>, j: nat)
    requires Run(trace).Some? && j <= |trace| && Run(trace[..j]).Some? && Run(trace[..j]).value.sent
    ensures exists k :: 0 <= k < j && trace[k].Requested? && trace[k].history == Run(trace[..j]).value.history
                        && NoRecord(trace, k + 1, j)
  {
    hide Step;
    if j > 0 {
      RunPrefix(trace, j - 1);
      StepSent(Run(trace[..j - 1]).value, trace[j - 1]);
      if trace[j - 1].Requested? {
        assert NoRecord(trace, j, j);
      } else {
        SentMeansRequested(trace, j - 1);
        var k :| 0 <= k < j - 1 && trace[k].Requested? && trace[k].history == Run(trace[..j - 1]).value.history
                 && NoRecord(trace, k + 1, j - 1);
        assert NoRecord(trace, k + 1, j);
      }
    }
  }

  predicate NoRecord(trace: seq<Event>, i: nat, j: nat)
    requires i <= j <= |trace|
  {
    forall m :: i <= m < j ==> !trace[m].Committed?
  }

  predicate IsResponse(e: Event) {
    e.Committed? && e.body.AssistantCompleted?
  }

  /** Nothing from `i` on is a completed response before `j`. */
  predicate NoResponse(trace: seq<Event>, i: nat, j: nat)
    requires i <= j <= |trace|
  {
    forall k :: i <= k < j ==> !IsResponse(trace[k])
  }

  /** The results recorded between two points of a trace, in order. */
  function Finishes(trace: seq<Event>, i: nat, j: nat): seq<ToolResultItem>
    requires i <= j <= |trace|
  {
    if i == j then []
    else
      Finishes(trace, i, j - 1)
      + if trace[j - 1].Committed? && trace[j - 1].body.ToolFinished? then [trace[j - 1].body.result] else []
  }

  ghost predicate Answers(results: seq<ToolResultItem>, calls: seq<ToolCall>) {
    |results| == |calls|
    && forall i :: 0 <= i < |calls| ==> results[i].callId == calls[i].callId && results[i].name == calls[i].name
  }

  /** The next record after a response's calls: what may only follow all their results. */
  predicate MovesOn(e: Event) {
    e.Requested?
    || (e.Committed? && (e.body.UserInputRecord? || e.body.UserContentRecord? || e.body.InboxRecord?
                         || e.body.AssistantCompleted? || e.body.AssistantInterrupted?))
  }

  /** What one event adds to the account of the last response. */
  lemma {:induction false} StepAccount(s: State, e: Event, id: string)
    requires Step(s, e).Some?
    ensures var t := Step(s, e).value;
            if IsResponse(e) then
              t.calls == t.pending == Calls(e.body.item) && t.permitted == t.started == t.executed == {} && t.accounted
            else
              && t.calls == s.calls
              && (id in t.permitted <==> id in s.permitted || (e.Permitted? && e.call.callId == id))
              && (id in t.started <==> id in s.started || (e.Committed? && e.body.ToolStarted? && e.body.callId == id))
              && (id in t.executed <==> id in s.executed || (e.Began? && e.call.callId == id))
              && (t.accounted ==> s.accounted)
    ensures Step(s, e).value.faithful ==> s.faithful
  {
    hide KeepsPending, DistinctIds, Ids, Reconciled, Unresolved, IsReconciled, MayOverlap;
  }

  /** A recorded result is the next pending call's; nothing else ends a call's wait. */
  lemma {:induction false} StepPending(s: State, e: Event)
    requires Step(s, e).Some? && Step(s, e).value.accounted && !IsResponse(e)
    ensures var t := Step(s, e).value;
            if e.Committed? && e.body.ToolFinished? then
              s.pending != [] && t.pending == s.pending[1..]
              && e.body.result.callId == s.pending[0].callId && e.body.result.name == s.pending[0].name
            else t.pending == s.pending
  {
    hide KeepsPending, DistinctIds, Ids, Reconciled, Unresolved, IsReconciled, MayOverlap;
  }

  lemma {:induction false} FinishedSoFar(trace: seq<Event>, i: nat, j: nat)
    requires Run(trace).Some? && i < j <= |trace|
    requires IsResponse(trace[i]) && NoResponse(trace, i + 1, j)
    requires Run(trace[..j]).Some? && Run(trace[..j]).value.accounted
    ensures Run(trace[..j]).value.calls == Calls(trace[i].body.item)
    ensures var s := Run(trace[..j]).value;
            |s.pending| <= |s.calls| && s.pending == s.calls[|s.calls| - |s.pending|..]
            && Answers(Finishes(trace, i + 1, j), s.calls[..|s.calls| - |s.pending|])
  {
    hide Run, Step, CallsIn, Answers;
    RunPrefix(trace, j - 1);
    var s, t := Run(trace[..j - 1]).value, Run(trace[..j]).value;
    var e := trace[j - 1];
    StepAccount(s, e, "");
    if j > i + 1 {
      FinishedSoFar(trace, i, j - 1);
      StepPending(s, e);
      var n := |s.calls| - |s.pending|;
      if e.Committed? && e.body.ToolFinished? {
        assert s.calls[n] == s.pending[0];
        AnswersStep(Finishes(trace, i + 1, j - 1), s.calls, n, e.body.result);
      } else {
        assert Finishes(trace, i + 1, j - 1) + [] == Finishes(trace, i + 1, j - 1);
      }
    } else {
      NothingAnswered(t.calls);
      assert Finishes(trace, i + 1, j) == [];
    }
  }

  lemma NothingAnswered(calls: seq<ToolCall>)
    ensures Answers([], calls[..0])
  {
  }

  lemma AnswersStep(results: seq<ToolResultItem>, calls: seq<ToolCall>, n: nat, result: ToolResultItem)
    requires n < |calls| && Answers(results, calls[..n]) && result.callId == calls[n].callId
              && result.name == calls[n].name
    ensures Answers(results + [result], calls[..n + 1])
  {
    assert calls[..n + 1] == calls[..n] + [calls[n]];
  }

  /** Exactly once, in block order: by the time the turn moves on from a response, each of its
      calls has exactly one recorded result and no other result was recorded, however the calls
      raced and however often a commit failed on the way. Only what a replacement
      did since that response can end the account. */
  lemma {:induction false} EachCallFinishedOnce(trace: seq<Event>, i: nat, j: nat)
    requires Run(trace).Some? && i < j < |trace|
    requires IsResponse(trace[i]) && NoResponse(trace, i + 1, j)
    requires MovesOn(trace[j])
    requires Run(trace[..j]).Some? && Run(trace[..j]).value.accounted
    ensures Answers(Finishes(trace, i + 1, j), Calls(trace[i].body.item))
  {
    hide Run, Step, CallsIn, Answers, Finishes;
    RunPrefix(trace, j);
    FinishedSoFar(trace, i, j);
    var s := Run(trace[..j]).value;
    MovesOnWhenQuiet(s, trace[j]);
    assert s.calls[..|s.calls|] == s.calls;
  }

  lemma {:induction false} MovesOnWhenQuiet(s: State, e: Event)
    requires Step(s, e).Some? && MovesOn(e)
    ensures Quiet(s)
  {
    hide KeepsPending, DistinctIds, Ids, Finish, Unresolved;
  }

  /** `permitted`, `started` and `executed` record what happened since the response. */
  lemma {:induction false} SinceResponse(trace: seq<Event>, i: nat, j: nat, id: string)
    requires Run(trace).Some? && i < j <= |trace|
    requires IsResponse(trace[i]) && NoResponse(trace, i + 1, j)
    ensures Run(trace[..j]).Some?
    ensures Run(trace[..j]).value.calls == Calls(trace[i].body.item)
    ensures id in Run(trace[..j]).value.permitted <==>
              exists k :: i < k < j && trace[k].Permitted? && trace[k].call.callId == id
    ensures id in Run(trace[..j]).value.started <==>
            exists k :: i < k < j && trace[k].Committed? && trace[k].body.ToolStarted? && trace[k].body.callId == id
    ensures id in Run(trace[..j]).value.executed <==>
              exists k :: i < k < j && trace[k].Began? && trace[k].call.callId == id
  {
    hide Run, Step, CallsIn;
    RunPrefix(trace, j - 1);
    StepAccount(Run(trace[..j - 1]).value, trace[j - 1], id);
    if j > i + 1 {
      SinceResponse(trace, i, j - 1, id);
    }
  }

  lemma {:induction false} BeganWhen(s: State, e: Event)
    requires Step(s, e).Some? && e.Began?
    ensures e.call in s.pending && e.call.callId in s.started && e.call.callId !in s.executed
    ensures |s.running| < e.limit && (s.running != {} ==> Overlaps(e) && s.overlapping)
  {
    hide MayOverlap, Commit;
  }

  lemma {:induction false} StartedWhen(s: State, e: Event)
    requires Step(s, e).Some? && e.Committed? && e.body.ToolStarted?
    ensures e.body.callId in s.permitted && e.body.callId !in s.started
  {
    hide Unresolved, Finish, KeepsPending;
  }

  /** A call executes at most once per response, and only after the policy permitted it and its
      own `ToolStarted` became durable. */
  lemma {:induction false} ExecutesOnceAfterItsRecord(trace: seq<Event>, i: nat, k: nat)
    requires Run(trace).Some? && i < k < |trace|
    requires IsResponse(trace[i]) && NoResponse(trace, i + 1, k)
    requires trace[k].Began?
    ensures trace[k].call in Calls(trace[i].body.item)
    ensures forall m :: i < m < k && trace[m].Began? ==> trace[m].call.callId != trace[k].call.callId
    ensures exists m, n :: i < m < n < k
                           && trace[m].Permitted? && trace[m].call.callId == trace[k].call.callId
                           && trace[n].Committed? && trace[n].body.ToolStarted?
                             && trace[n].body.callId == trace[k].call.callId
  {
    hide Run, Step, CallsIn, KeepsPending, DistinctIds, Ids;
    var id := trace[k].call.callId;
    RunPrefix(trace, k);
    SinceResponse(trace, i, k, id);
    BeganWhen(Run(trace[..k]).value, trace[k]);
    RunCoherent(trace[..k]);
    var n :| i < n < k && trace[n].Committed? && trace[n].body.ToolStarted? && trace[n].body.callId == id;
    RunPrefix(trace, n);
    SinceResponse(trace, i, n, id);
    StartedWhen(Run(trace[..n]).value, trace[n]);
    var m :| i < m < n && trace[m].Permitted? && trace[m].call.callId == id;
  }

  lemma {:induction false} ReconciledWhen(s: State, e: Event)
    requires Step(s, e).Some? && e.Committed? && e.reconciling && e.body.ToolFinished?
    ensures IsReconciled(e.body.result)
    ensures Step(s, e).value.accounted ==>
              s.accounted && s.pending != [] && e.body.result
                == Reconciled(s.pending[0], s.pending[0].callId in s.started)
  {
    hide Unresolved, KeepsPending;
  }

  lemma {:induction false} FinishedWhen(s: State, e: Event)
    requires Step(s, e).Some? && e.Committed? && !e.reconciling && e.body.ToolFinished?
    ensures e.body.result.callId in s.executed || NotExecutedStatus(e.body.result.status)
  {
    hide Unresolved, KeepsPending, IsReconciled;
  }

  /** Reconciliation reports a call of the last response as unknown exactly when its
      `ToolStarted` was journalled, and the call had no result yet: it is never reported twice. */
  lemma {:induction false} ReconciledUnknownIffStarted(trace: seq<Event>, i: nat, k: nat)
    requires Run(trace).Some? && i < k < |trace|
    requires IsResponse(trace[i]) && NoResponse(trace, i + 1, k)
    requires trace[k].Committed? && trace[k].reconciling && trace[k].body.ToolFinished?
    requires Run(trace[..k + 1]).Some? && Run(trace[..k + 1]).value.accounted
    ensures trace[k].body.result.status.Unknown? <==>
            exists m :: i < m < k && trace[m].Committed? && trace[m].body.ToolStarted?
                        && trace[m].body.callId == trace[k].body.result.callId
    ensures forall r :: r in Finishes(trace, i + 1, k) ==> r.callId != trace[k].body.result.callId
  {
    hide Run, Step, CallsIn, KeepsPending, Ids, Finishes, Unresolved, IsReconciled;
    var id := trace[k].body.result.callId;
    RunPrefix(trace, k);
    RunCoherent(trace[..k]);
    SinceResponse(trace, i, k, id);
    var s := Run(trace[..k]).value;
    ReconciledWhen(s, trace[k]);
    FinishedSoFar(trace, i, k);
    var n := |s.calls| - |s.pending|;
    assert s.calls[n] == s.pending[0];
    forall r | r in Finishes(trace, i + 1, k) ensures r.callId != id {
      var m :| 0 <= m < n && Finishes(trace, i + 1, k)[m] == r;
      assert s.calls[..n][m] == s.calls[m];
    }
  }

  /** Whatever replacements did, reconciliation only ever reports unknown or cancelled calls. */
  lemma {:induction false} ReconciledClaimsNothing(trace: seq<Event>, k: nat)
    requires Run(trace).Some? && k < |trace|
    requires trace[k].Committed? && trace[k].reconciling && trace[k].body.ToolFinished?
    ensures IsReconciled(trace[k].body.result)
  {
    hide Run, Step, IsReconciled;
    RunPrefix(trace, k);
    ReconciledWhen(Run(trace[..k]).value, trace[k]);
  }

  /** A started call that never ran reports Cancelled, and one that was never started reports
      why: no result claims an execution that did not happen. */
  lemma {:induction false} ResultsReportExecutions(trace: seq<Event>, i: nat, k: nat)
    requires Run(trace).Some? && i < k < |trace|
    requires IsResponse(trace[i]) && NoResponse(trace, i + 1, k)
    requires trace[k].Committed? && !trace[k].reconciling && trace[k].body.ToolFinished?
    ensures NotExecutedStatus(trace[k].body.result.status)
            || exists m :: i < m < k && trace[m].Began? && trace[m].call.callId == trace[k].body.result.callId
  {
    hide Run, Step, CallsIn;
    RunPrefix(trace, k);
    SinceResponse(trace, i, k, trace[k].body.result.callId);
    FinishedWhen(Run(trace[..k]).value, trace[k]);
  }

  predicate Stops(e: Event, id: string) {
    e.Crashed? || (e.Returned? && e.call.callId == id)
  }

  lemma {:induction false} StepRunning(s: State, e: Event, id: string)
    requires Step(s, e).Some? && id in s.running
    ensures id in Step(s, e).value.running <==> !Stops(e, id)
    ensures Step(s, e).value.overlapping ==> s.overlapping
    ensures e.Began? ==> Overlaps(e) && s.overlapping
  {
    hide MayOverlap, Unresolved, KeepsPending;
  }

  /** What runs afterwards ran before or begins now. */
  lemma {:induction false} StepBegins(s: State, e: Event, id: string)
    requires Step(s, e).Some? && id !in s.running
    ensures id in Step(s, e).value.running <==> e.Began? && e.call.callId == id
  {
    hide MayOverlap, Unresolved, KeepsPending;
  }

  lemma {:induction false} StillRunning(trace: seq<Event>, a: nat, j: nat)
    requires Run(trace).Some? && a < j <= |trace| && trace[a].Began?
    requires forall c :: a < c < j ==> !Stops(trace[c], trace[a].call.callId)
    ensures Run(trace[..j]).Some?
    ensures trace[a].call.callId in Run(trace[..j]).value.running
    ensures Run(trace[..j]).value.overlapping ==> Overlaps(trace[a])
  {
    hide Run, Commit, MayOverlap;
    RunPrefix(trace, j - 1);
    if j > a + 1 {
      hide Step;
      StillRunning(trace, a, j - 1);
      StepRunning(Run(trace[..j - 1]).value, trace[j - 1], trace[a].call.callId);
    }
  }

  /** Exclusive, writing and delegating calls run alone, and so does every call while only one may
      run: between the start of a call and the start of a later one, of which one is like that,
      the first has returned. */
  lemma {:induction false} ExclusiveCallsRunAlone(trace: seq<Event>, a: nat, b: nat)
    requires Run(trace).Some? && a < b < |trace| && trace[a].Began? && trace[b].Began?
    requires !Overlaps(trace[a]) || !Overlaps(trace[b])
    ensures exists c :: a < c < b && Stops(trace[c], trace[a].call.callId)
  {
    hide Run, Step, MayOverlap;
    if forall c :: a < c < b ==> !Stops(trace[c], trace[a].call.callId) {
      StillRunning(trace, a, b);
      RunPrefix(trace, b);
      StepRunning(Run(trace[..b]).value, trace[b], trace[a].call.callId);
    }
  }

  /** A call with this id began before `j` and has not returned by then. */
  ghost predicate IsRunning(trace: seq<Event>, j: nat, id: string)
    requires j <= |trace|
  {
    exists a :: 0 <= a < j && trace[a].Began? && trace[a].call.callId == id && NotStopped(trace, a, j, id)
  }

  predicate NotStopped(trace: seq<Event>, a: nat, j: nat, id: string)
    requires a < j <= |trace|
  {
    forall c :: a < c < j ==> !Stops(trace[c], id)
  }

  lemma {:induction false} RunningIsWhatBegan(trace: seq<Event>, j: nat, id: string)
    requires Run(trace).Some? && j <= |trace|
    ensures Run(trace[..j]).Some?
    ensures id in Run(trace[..j]).value.running <==> IsRunning(trace, j, id)
  {
    hide Step;
    RunPrefix(trace, j);
    if j > 0 {
      RunPrefix(trace, j - 1);
      RunningIsWhatBegan(trace, j - 1, id);
      var s, e := Run(trace[..j - 1]).value, trace[j - 1];
      if id in s.running {
        StepRunning(s, e, id);
        var a :| 0 <= a < j - 1 && trace[a].Began? && trace[a].call.callId == id && NotStopped(trace, a, j - 1, id);
        if !Stops(e, id) { assert NotStopped(trace, a, j, id); }
      } else {
        StepBegins(s, e, id);
        if e.Began? && e.call.callId == id { assert NotStopped(trace, j - 1, j, id); }
        assert forall a :: 0 <= a < j - 1 && NotStopped(trace, a, j, id) ==> NotStopped(trace, a, j - 1, id);
      }
    }
  }

  /** Never more calls run than the bound that held when the last of them began. */
  lemma {:induction false} AtMostLimitRun(trace: seq<Event>, k: nat) returns (running: set<string>)
    requires Run(trace).Some? && k < |trace| && trace[k].Began?
    ensures forall id :: id in running <==> IsRunning(trace, k + 1, id)
    ensures trace[k].call.callId in running && |running| <= trace[k].limit
  {
    hide Run, Step, IsRunning;
    RunPrefix(trace, k);
    var s := Run(trace[..k]).value;
    BeganWhen(s, trace[k]);
    BeganRunning(s, trace[k]);
    running := s.running + {trace[k].call.callId};
    forall id ensures id in running <==> IsRunning(trace, k + 1, id) {
      RunningIsWhatBegan(trace, k + 1, id);
    }
  }

  lemma {:induction false} BeganRunning(s: State, e: Event)
    requires Step(s, e).Some? && e.Began?
    ensures Step(s, e).value.running == s.running + {e.call.callId}
    ensures |s.running + {e.call.callId}| <= |s.running| + 1
  {
    hide MayOverlap, Commit;
  }

  // ------------------------------------------------------------------ cancellation

  /** Whether the current turn's token is cancelled. */
  function CancelledAt(trace: seq<Event>): bool {
    if trace == [] then false
    else
      match trace[|trace| - 1]
      case TurnBegan(cancelled) => cancelled
      case CancelFired => true
      case Crashed => false
      case _ => CancelledAt(trace[..|trace| - 1])
  }

  /** A turn records a call as cancelled that did not execute. */
  predicate GivesUp(e: Event, executed: set<string>) {
    e.Committed? && !e.reconciling && e.body.ToolFinished? && e.body.result.status.Cancelled?
      && e.body.result.callId !in executed
  }

  /** With the token cancelled no request is sent and no call is permitted, and only then is a call
      given up. */
  ghost predicate HonoursCancel(trace: seq<Event>) {
    trace == []
    || (var m := |trace| - 1;
        && HonoursCancel(trace[..m])
        && (trace[m].Requested? || trace[m].Permitted? ==> !CancelledAt(trace[..m]))
        && (Run(trace[..m]).Some? && GivesUp(trace[m], Run(trace[..m]).value.executed) ==> CancelledAt(trace[..m])))
  }

  /** A result that reports a cancelled call belongs to a call that executed, or follows the token of
      its own turn: that was cancelled from the start, or fired. */
  lemma {:induction false} GivenUpAfterToken(trace: seq<Event>, i: nat, k: nat)
    requires Run(trace).Some? && HonoursCancel(trace) && i < k < |trace|
    requires IsResponse(trace[i]) && NoResponse(trace, i + 1, k)
    requires trace[k].Committed? && !trace[k].reconciling && trace[k].body.ToolFinished?
              && trace[k].body.result.status.Cancelled?
    ensures || (exists m :: i < m < k && trace[m].Began? && trace[m].call.callId == trace[k].body.result.callId)
            || (exists c ::
                  0 <= c < k && (trace[c].CancelFired? || (trace[c].TurnBegan? && trace[c].cancelled)) && SameTurn(trace, c, k))
  {
    hide Run, Step, CallsIn, HonoursCancel;
    RunPrefix(trace, k);
    SinceResponse(trace, i, k, trace[k].body.result.callId);
    HonoursPrefix(trace, k + 1);
    LastHonours(trace[..k + 1]);
    assert trace[..k + 1][..k] == trace[..k];
    if CancelledAt(trace[..k]) { CancelledMeansFired(trace, k); }
  }

  lemma LastHonours(trace: seq<Event>)
    requires trace != [] && HonoursCancel(trace)
    ensures var m := |trace| - 1;
            Run(trace[..m]).Some? && GivesUp(trace[m], Run(trace[..m]).value.executed) ==> CancelledAt(trace[..m])
  {
    hide Run, GivesUp, CancelledAt;
  }

  /** No turn or process begins or ends behind `c` and before `k`. */
  predicate SameTurn(trace: seq<Event>, c: nat, k: nat)
    requires c < k <= |trace|
  {
    forall m :: c < m < k ==> !trace[m].TurnBegan? && !trace[m].Crashed?
  }

  lemma {:induction false} CancelledMeansFired(trace: seq<Event>, k: nat)
    requires k <= |trace| && CancelledAt(trace[..k])
    ensures exists c :: 0 <= c < k && (trace[c].CancelFired? || (trace[c].TurnBegan? && trace[c].cancelled))
              && SameTurn(trace, c, k)
  {
    if trace[k - 1].CancelFired? || trace[k - 1].TurnBegan? {
      assert SameTurn(trace, k - 1, k);
    } else {
      assert trace[..k][..k - 1] == trace[..k - 1];
      CancelledMeansFired(trace, k - 1);
      var c :| 0 <= c < k - 1 && (trace[c].CancelFired? || (trace[c].TurnBegan? && trace[c].cancelled))
            && SameTurn(trace, c, k - 1);
      assert SameTurn(trace, c, k);
    }
  }

  /** Once a turn's token fired, that turn sends no request and permits no call. */
  lemma {:induction false} NothingBeginsAfterCancel(trace: seq<Event>, i: nat, k: nat)
    requires HonoursCancel(trace) && i < k < |trace| && trace[i].CancelFired?
    requires SameTurn(trace, i, k)
    ensures !trace[k].Requested? && !trace[k].Permitted?
  {
    var m := |trace| - 1;
    if k < m {
      NothingBeginsAfterCancel(trace[..m], i, k);
    } else {
      StaysCancelled(trace, i, k);
    }
  }

  lemma {:induction false} StaysCancelled(trace: seq<Event>, i: nat, k: nat)
    requires i < k <= |trace| && trace[i].CancelFired?
    requires SameTurn(trace, i, k)
    ensures CancelledAt(trace[..k])
  {
    if i + 1 < k {
      StaysCancelled(trace, i, k - 1);
      assert trace[..k][..k - 1] == trace[..k - 1];
    }
  }

  lemma {:induction false} HonoursPrefix(trace: seq<Event>, n: nat)
    requires HonoursCancel(trace) && n <= |trace|
    ensures HonoursCancel(trace[..n])
  {
    if n == |trace| {
      assert trace[..n] == trace;
    } else {
      var m := |trace| - 1;
      HonoursPrefix(trace[..m], n);
      assert trace[..m][..n] == trace[..n];
    }
  }
}
