/** Journal projection: rebuilding an agent's state from its records (resume.rs). */
module Resume {
  import opened Contracts
  import opened Transcript
  import opened Trace

  datatype UnresolvedCall = UnresolvedCall(call: ToolCall, started: bool)

  datatype Projection = Projection(
    history: seq<Item>, nextSeq: nat, environmentCommitted: bool,
    unresolvedCalls: seq<UnresolvedCall>, lastUsage: Option<Usage>)

  datatype ResumeError =
    | MissingEnvironment
    | Sequence(expected: nat, got: nat)
    | UnknownCall(callId: string)

  // ------------------------------------------------------------------ what a journal says

  function BodiesOf(records: seq<JournalRecord>): (bodies: seq<RecordBody>)
    ensures |bodies| == |records|
    ensures forall i :: 0 <= i < |records| ==> bodies[i] == records[i].body
  {
    seq(|records|, i requires 0 <= i < |records| => records[i].body)
  }

  /** The calls of the last completed response. */
  function LastCalls(bodies: seq<RecordBody>): seq<ToolCall> {
    if bodies == [] then []
    else
      var b := bodies[|bodies| - 1];
      if b.AssistantCompleted? then Calls(b.item) else LastCalls(bodies[..|bodies| - 1])
  }

  /** The position of the last completed response, or -1. */
  function LastResponse(bodies: seq<RecordBody>): (k: int)
    ensures -1 <= k < |bodies|
  {
    if bodies == [] then -1
    else if bodies[|bodies| - 1].AssistantCompleted? then |bodies| - 1
    else LastResponse(bodies[..|bodies| - 1])
  }

  /** The calls started since the last completed response; none without one. */
  function StartedSince(bodies: seq<RecordBody>): set<string> {
    var k := LastResponse(bodies);
    set i | k < i < |bodies| && k >= 0 && bodies[i].ToolStarted? :: bodies[i].callId
  }

  /** What the last response was reported to have used; a replacement since then voids it. */
  function LastUsage(bodies: seq<RecordBody>): Option<Usage> {
    if bodies == [] then None
    else
      var b := bodies[|bodies| - 1];
      if b.AssistantCompleted? then b.usage
      else if b.ContextReplaced? then None
      else LastUsage(bodies[..|bodies| - 1])
  }

  /** Every finished call is one of the last response's. */
  predicate FinishesKnown(bodies: seq<RecordBody>, n: nat)
    requires n <= |bodies|
  {
    forall i :: 0 <= i < n && bodies[i].ToolFinished? ==>
                  exists c :: c in LastCalls(bodies[..i]) && c.callId == bodies[i].result.callId
  }

  predicate Dense(records: seq<JournalRecord>, n: nat)
    requires n <= |records|
  {
    forall i :: 0 <= i < n ==> records[i].seqNo == i
  }

  /** What a core can have written. */
  predicate IsCoreJournal(records: seq<JournalRecord>) {
    && (records != [] ==> records[0].body.Environment?)
    && Dense(records, |records|)
    && FinishesKnown(BodiesOf(records), |records|)
  }

  function WithStarted(calls: seq<ToolCall>, started: set<string>): (r: seq<UnresolvedCall>)
    ensures |r| == |calls|
    ensures forall i :: 0 <= i < |calls| ==> r[i] == UnresolvedCall(calls[i], calls[i].callId in started)
  {
    seq(|calls|, i requires 0 <= i < |calls| => UnresolvedCall(calls[i], calls[i].callId in started))
  }

  /** What one record changes. */
  lemma {:induction false} ProjectRecord(bodies: seq<RecordBody>, n: nat)
    requires n < |bodies|
    ensures HistoryOf(bodies[..n + 1]) == Apply(HistoryOf(bodies[..n]), bodies[n])
    ensures LastCalls(bodies[..n + 1]) ==
              if bodies[n].AssistantCompleted? then Calls(bodies[n].item) else LastCalls(bodies[..n])
    ensures LastUsage(bodies[..n + 1]) ==
            if bodies[n].AssistantCompleted? then bodies[n].usage
            else if bodies[n].ContextReplaced? then None else LastUsage(bodies[..n])
    ensures LastResponse(bodies[..n + 1]) == if bodies[n].AssistantCompleted? then n else LastResponse(bodies[..n])
  {
    hide Apply, CallsIn;
    assert bodies[..n + 1][..n] == bodies[..n];
  }

  /** `project`: the state of the records, or why they are not a core session's. */
  method Project(records: seq<JournalRecord>) returns (r: Result<Projection, ResumeError>)
    ensures r.Ok? <==> IsCoreJournal(records)
    ensures r.Ok? ==>
              r.value == Projection(
                           HistoryOf(BodiesOf(records)), |records|, records != [],
                           WithStarted(Unresolved(HistoryOf(BodiesOf(records))), StartedSince(BodiesOf(records))),
                           LastUsage(BodiesOf(records)))
  {
    hide HistoryOf, LastCalls, LastUsage, LastResponse, CallsIn, Unresolved, WithStarted;
    if records != [] && !records[0].body.Environment? {
      return Err(MissingEnvironment);
    }
    ghost var bodies := BodiesOf(records);
    var history: seq<Item>, lastUsage: Option<Usage> := [], None;
    var lastCalls: seq<ToolCall>, lastRecord: int := [], -1;
    EmptyJournal(bodies);
    var index := 0;
    while index < |records|
      invariant 0 <= index <= |records|
      invariant Dense(records, index) && FinishesKnown(bodies, index)
      invariant history == HistoryOf(bodies[..index])
      invariant lastCalls == LastCalls(bodies[..index])
      invariant lastUsage == LastUsage(bodies[..index])
      invariant lastRecord == LastResponse(bodies[..index])
    {
      var record := records[index];
      if record.seqNo != index {
        return Err(Sequence(index, record.seqNo));
      }
      ProjectRecord(bodies, index);
      match record.body {
        case UserInputRecord(text) => history := history + [User(text)];
        case UserContentRecord(blocks) => history := history + [UserContent(blocks)];
        case InboxRecord(kind, text) => history := history + [Inbox(kind, text)];
        case AssistantCompleted(item, _, usage) =>
          lastCalls := Calls(item);
          lastRecord := index;
          lastUsage := usage;
          history := history + [Assistant(item)];
        case ToolFinished(result, _) =>
          if !exists c :: c in lastCalls && c.callId == result.callId {
            assert bodies[index].ToolFinished?;
            return Err(UnknownCall(result.callId));
          }
          history := history + [ToolResult(result)];
        case ContextReplaced(items, _) =>
          history := items;
          lastUsage := None;
        case _ =>
      }
      index := index + 1;
    }
    assert bodies[..|records|] == bodies;
    var started := set i | lastRecord < i < |records| && lastRecord >= 0
          && records[i].body.ToolStarted? :: records[i].body.callId;
    assert started == StartedSince(bodies);
    return Ok(Projection(history, |records|, records != [], WithStarted(Unresolved(history), started), lastUsage));
  }

  lemma {:induction false} EmptyJournal(bodies: seq<RecordBody>)
    ensures HistoryOf(bodies[..0]) == [] && LastCalls(bodies[..0]) == []
    ensures LastUsage(bodies[..0]) == None && LastResponse(bodies[..0]) == -1
  {
  }

  // ------------------------------------------------------------------ what changed meanwhile

  /** `changedTools` and `missingTools` are call names of the journalled tools. */
  datatype ResumeReport = ResumeReport(
    unresolvedCalls: seq<UnresolvedCall>, changedTools: seq<string>, missingTools: seq<string>,
      environmentChanged: bool)

  /** The assembly the journal names last. */
  function LastAssembly(bodies: seq<RecordBody>): Option<Assembly> {
    if bodies == [] then None
    else
      var b := bodies[|bodies| - 1];
      if b.Environment? then Some(b.assembly) else LastAssembly(bodies[..|bodies| - 1])
  }

  lemma {:induction false} LastAssemblyAt(bodies: seq<RecordBody>, k: nat)
    requires k < |bodies| && bodies[k].Environment? && forall i :: k < i < |bodies| ==> !bodies[i].Environment?
    ensures LastAssembly(bodies) == Some(bodies[k].assembly)
  {
    if k < |bodies| - 1 {
      LastAssemblyAt(bodies[..|bodies| - 1], k);
    }
  }

  lemma {:induction false} NoAssembly(bodies: seq<RecordBody>)
    requires forall i :: 0 <= i < |bodies| ==> !bodies[i].Environment?
    ensures LastAssembly(bodies) == None
  {
    if bodies != [] {
      NoAssembly(bodies[..|bodies| - 1]);
    }
  }

  /** The first tool of this call name. */
  function Named(tools: seq<ToolEntry>, name: string): (entry: Option<ToolEntry>)
    ensures entry.Some? ==> entry.value in tools && entry.value.name == name
    ensures entry.None? <==> forall t :: t in tools ==> t.name != name
  {
    if tools == [] then None
    else if tools[0].name == name then Some(tools[0])
    else Named(tools[1..], name)
  }

  /** A journalled tool that is assembled again under its name, but is another one. */
  predicate IsChanged(entry: ToolEntry, assembled: seq<ToolEntry>) {
    var found := Named(assembled, entry.name);
    found.Some? && found.value.identity != entry.identity
  }

  /** The loop over the journalled tools. */
  method CompareTools(journalled: seq<ToolEntry>, assembled: seq<ToolEntry>)
    returns (changed: seq<string>, missing: seq<string>)
    ensures forall n :: n in changed <==>
              exists i :: 0 <= i < |journalled| && journalled[i].name == n && IsChanged(journalled[i], assembled)
    ensures forall n :: n in missing <==>
              (exists i :: 0 <= i < |journalled| && journalled[i].name == n) && forall t :: t in assembled ==>
              t.name != n
  {
    changed, missing := [], [];
    for k := 0 to |journalled|
      invariant forall n :: n in changed <==>
                exists i :: 0 <= i < k && journalled[i].name == n && IsChanged(journalled[i], assembled)
      invariant forall n :: n in missing <==>
                exists i :: 0 <= i < k && journalled[i].name == n && Named(assembled, n).None?
    {
      hide Named;
      var entry := journalled[k];
      if IsChanged(entry, assembled) {
        changed := changed + [entry.name];
      } else if Named(assembled, entry.name).None? {
        missing := missing + [entry.name];
      }
    }
  }

  /** `compare_environment`: against the assembly the journal names last, if it names one. */
  method CompareEnvironment(records: seq<JournalRecord>, assembly: Assembly, unresolved: seq<UnresolvedCall>)
    returns (report: ResumeReport)
    ensures report.unresolvedCalls == unresolved
    ensures var last := LastAssembly(BodiesOf(records));
            && (report.environmentChanged <==> last.Some? && last.value != assembly)
            && (forall n :: n in report.changedTools <==>
                              last.Some? && exists t ::
                                t in last.value.tools && t.name == n && IsChanged(t, assembly.tools))
            && (forall n :: n in report.missingTools <==>
                              last.Some? && (exists t :: t in last.value.tools && t.name == n)
                              && forall t :: t in assembly.tools ==> t.name != n)
  {
    hide IsChanged, LastAssembly;
    var at := |records|;
    while at > 0
      invariant 0 <= at <= |records|
      invariant forall i :: at <= i < |records| ==> !records[i].body.Environment?
    {
      at := at - 1;
      if records[at].body.Environment? {
        var last := records[at].body.assembly;
        LastAssemblyAt(BodiesOf(records), at);
        var changed, missing := CompareTools(last.tools, assembly.tools);
        return ResumeReport(unresolved, changed, missing, last != assembly);
      }
    }
    NoAssembly(BodiesOf(records));
    return ResumeReport(unresolved, [], [], false);
  }

  // ------------------------------------------------------------------ resume and the live agent

  /** What the trace's state knows of the last response is what its journal says. */
  lemma {:induction false} StateIsInJournal(trace: seq<Event>)
    requires Run(trace).Some?
    ensures var s, bodies := Run(trace).value, Bodies(trace);
            s.calls == LastCalls(bodies) && s.started == StartedSince(bodies)
            && (LastResponse(bodies) < 0 ==> s.calls == [])
  {
    hide Step, Ids, CallsIn, Bodies, LastCalls, LastResponse, StartedSince, KeepsPending, DistinctIds;
    if trace == [] {
      EmptyState();
    } else {
      var m := |trace| - 1;
      var e := trace[m];
      StateIsInJournal(trace[..m]);
      assert trace == trace[..m] + [e];
      RunAppend(trace[..m], e);
      var s, t, b := Run(trace[..m]).value, Run(trace).value, Bodies(trace[..m]);
      forall id
        ensures id in t.started <==> if IsResponse(e) then false
                  else id in s.started || (e.Committed? && e.body.ToolStarted? && e.body.callId == id)
      {
        StepAccount(s, e, id);
      }
      StepAccount(s, e, "");
      if e.Committed? {
        var bodies := b + [e.body];
        assert Bodies(trace) == bodies && bodies[..|b|] == b && bodies[..|b| + 1] == bodies;
        ProjectRecord(bodies, |b|);
        if e.body.ToolStarted? {
          StartedNeedsCall(s, e);
          RunCoherent(trace[..m]);
        }
        StartedExtend(b, e.body);
      } else {
        assert b + [] == b;
      }
    }
  }

  lemma EmptyState()
    ensures Bodies([]) == [] && Run([]) == Some(INITIAL)
    ensures LastCalls([]) == [] && StartedSince([]) == {} && LastResponse([]) == -1
  {
  }

  lemma {:induction false} StartedNeedsCall(s: State, e: Event)
    requires Step(s, e).Some? && e.Committed? && e.body.ToolStarted?
    ensures s.pending != []
  {
  }

  lemma {:induction false} StartedExtend(bodies: seq<RecordBody>, body: RecordBody)
    ensures StartedSince(bodies + [body]) ==
            if body.AssistantCompleted? then {}
            else StartedSince(bodies) + if body.ToolStarted? && LastResponse(bodies) >= 0 then {body.callId} else {}
  {
    var all := bodies + [body];
    assert all[..|bodies|] == bodies && all[..|all| - 1] == bodies;
    hide CallsIn;
    forall id ensures id in StartedSince(all) <==>
      !body.AssistantCompleted? && (id in StartedSince(bodies)
        || (body.ToolStarted? && LastResponse(bodies) >= 0 && body.callId == id))
    {
      var k := LastResponse(bodies);
      if id in StartedSince(bodies) {
        var i :| k < i < |bodies| && k >= 0 && bodies[i].ToolStarted? && bodies[i].callId == id;
        assert all[i] == bodies[i];
      }
      if body.ToolStarted? { assert all[|bodies|] == body; }
    }
  }

  lemma NothingFinished()
    ensures FinishesKnown([], 0)
  {
  }

  lemma {:induction false} KnownExtend(bodies: seq<RecordBody>, body: RecordBody)
    requires FinishesKnown(bodies, |bodies|)
    requires body.ToolFinished? ==> exists c :: c in LastCalls(bodies) && c.callId == body.result.callId
    ensures FinishesKnown(bodies + [body], |bodies| + 1)
  {
    hide LastCalls;
    var all := bodies + [body];
    forall i | 0 <= i < |all| && all[i].ToolFinished?
      ensures exists c :: c in LastCalls(all[..i]) && c.callId == all[i].result.callId
    {
      if i < |bodies| {
        assert all[..i] == bodies[..i] && all[i] == bodies[i];
      } else {
        assert all[..i] == bodies;
      }
    }
  }

  /** The trace and all its prefixes are accepted and accounted for. */
  ghost predicate AlwaysAccounted(trace: seq<Event>) {
    Run(trace).Some? && Run(trace).value.accounted && (trace != [] ==> AlwaysAccounted(trace[..|trace| - 1]))
  }

  lemma {:induction false} FaithfulIsAlwaysAccounted(trace: seq<Event>)
    requires Run(trace).Some? && Run(trace).value.faithful
    ensures AlwaysAccounted(trace)
  {
    hide Run, Step, KeepsPending, Unresolved;
    RunCoherent(trace);
    if trace != [] {
      var m := |trace| - 1;
      FaithfulBefore(trace, m);
      FaithfulIsAlwaysAccounted(trace[..m]);
    }
  }

  /** Each journalled result belongs to the response journalled last, while every response is
      accounted for. */
  lemma {:induction false} FinishesAreKnown(trace: seq<Event>)
    requires AlwaysAccounted(trace)
    ensures FinishesKnown(Bodies(trace), |Bodies(trace)|)
  {
    hide Step, Bodies, LastCalls, CallsIn, KeepsPending, DistinctIds, Ids, FinishesKnown, Unresolved;
    if trace == [] {
      EmptyState();
      NothingFinished();
    } else {
      var m := |trace| - 1;
      var e := trace[m];
      assert trace == trace[..m] + [e];
      RunAppend(trace[..m], e);
      var s, b := Run(trace[..m]).value, Bodies(trace[..m]);
      StepAccount(s, e, "");
      FinishesAreKnown(trace[..m]);
      StateIsInJournal(trace[..m]);
      RunCoherent(trace[..m]);
      if e.Committed? {
        var bodies := Bodies(trace);
        assert bodies == b + [e.body];
        if e.body.ToolFinished? {
          StepPending(s, e);
          assert s.pending[0] in s.calls;
        }
        KnownExtend(b, e.body);
      } else {
        assert b + [] == b;
      }
    }
  }

  /** The journal an agent with this trace has written: record i carries sequence number i,
      until the counter saturates. */
  ghost predicate Journals(records: seq<JournalRecord>, trace: seq<Event>) {
    BodiesOf(records) == Bodies(trace)
    && forall i :: 0 <= i < |records| ==> records[i].seqNo == Saturated(i)
  }

  function Saturated(n: nat): nat {
    if n <= U64_MAX then n else U64_MAX
  }

  /** The journal as it was when the trace had got to its first `n` events. */
  lemma {:induction false} JournalWas(records: seq<JournalRecord>, trace: seq<Event>, n: nat)
    requires Journals(records, trace) && n <= |trace|
    ensures |Bodies(trace[..n])| <= |records| && Journals(records[..|Bodies(trace[..n])|], trace[..n])
  {
    hide Bodies;
    BodiesOfPrefix(trace, n);
  }

  lemma {:induction false} BodiesOfPrefix(trace: seq<Event>, n: nat)
    requires n <= |trace|
    ensures Bodies(trace[..n]) <= Bodies(trace)
  {
    if n == |trace| {
      assert trace[..n] == trace;
    } else {
      var m := |trace| - 1;
      BodiesOfPrefix(trace[..m], n);
      assert trace[..m][..n] == trace[..n];
    }
  }

  /** Crash and resume: whatever the agent did before, and wherever it stopped, its journal
      projects to exactly the state the trace reached: the same history, the same calls started
      and, while the last response is accounted for and still waits, the same calls pending. The
      journal is accepted when every response was accounted for and the sequence counter did not
      saturate. */
  lemma {:induction false} ResumeIsExact(records: seq<JournalRecord>, trace: seq<Event>)
    requires Run(trace).Some? && Journals(records, trace)
    ensures AlwaysAccounted(trace) ==> (IsCoreJournal(records) <==> |records| <= U64_MAX + 1)
    ensures HistoryOf(BodiesOf(records)) == Run(trace).value.history
    ensures StartedSince(BodiesOf(records)) == Run(trace).value.started
    ensures var s := Run(trace).value;
            s.faithful || (s.accounted && s.pending != []) ==> Unresolved(s.history) == s.pending
    ensures Run(trace).value.faithful ==> AlwaysAccounted(trace)
  {
    hide Run, Step, Bodies, HistoryOf, LastCalls, Unresolved, StartedSince, Ids, PendingFrom, DistinctIds,
         AlwaysAccounted;
    HistoryIsProjection(trace);
    StateIsInJournal(trace);
    RunCoherent(trace);
    if Run(trace).value.faithful {
      FaithfulIsAccounted(Run(trace).value);
      FaithfulIsAlwaysAccounted(trace);
    }
    if AlwaysAccounted(trace) {
      FinishesAreKnown(trace);
    }
    if |records| > U64_MAX + 1 {
      assert records[U64_MAX + 1].seqNo == U64_MAX;
    }
  }

  lemma {:induction false} KnownExtendIff(bodies: seq<RecordBody>, body: RecordBody)
    ensures FinishesKnown(bodies + [body], |bodies| + 1) <==>
            FinishesKnown(bodies, |bodies|)
            && (body.ToolFinished? ==> exists c :: c in LastCalls(bodies) && c.callId == body.result.callId)
    ensures LastCalls(bodies + [body]) == if body.AssistantCompleted? then Calls(body.item) else LastCalls(bodies)
  {
    hide CallsIn;
    var all := bodies + [body];
    assert all[..|bodies|] == bodies;
    assert forall i :: 0 <= i < |bodies| ==> all[..i] == bodies[..i] && all[i] == bodies[i];
    if FinishesKnown(all, |all|) && body.ToolFinished? {
      assert all[|bodies|].ToolFinished?;
    }
    if FinishesKnown(bodies, |bodies|) && (body.ToolFinished? ==>
         exists c :: c in LastCalls(bodies) && c.callId == body.result.callId) {
      hide LastCalls;
      KnownExtend(bodies, body);
    }
  }

  /** A record that adds no item: the environment, an interrupted response, a request's timing. */
  predicate AddsNoItem(body: RecordBody) {
    body.Environment? || body.AssistantInterrupted? || body.RequestTiming?
  }

  /** The results among these records, in order. */
  function ResultsIn(bodies: seq<RecordBody>): seq<ToolResultItem> {
    if bodies == [] then []
    else
      var last := bodies[|bodies| - 1];
      ResultsIn(bodies[..|bodies| - 1]) + if last.ToolFinished? then [last.result] else []
  }

  /** The first of these calls have the results, one each, in order. */
  ghost predicate AnswersFirst(results: seq<ToolResultItem>, calls: seq<ToolCall>) {
    |results| <= |calls| && forall i :: 0 <= i < |results| ==> results[i].callId == calls[i].callId
  }

  lemma LastResult(more: seq<RecordBody>)
    requires more != []
    ensures var last := more[|more| - 1];
            ResultsIn(more) == ResultsIn(more[..|more| - 1]) + if last.ToolFinished? then [last.result] else []
  {
  }

  lemma IsAmong(calls: seq<ToolCall>, id: string)
    ensures (exists c :: c in calls && c.callId == id) <==> id in Ids(calls)
  {
  }

  /** Results may follow when, and only when, they are of calls of the last response. */
  lemma {:induction false} ResultsKnownIff(bodies: seq<RecordBody>, more: seq<RecordBody>)
    requires forall b :: b in more ==> AddsNoItem(b) || b.ToolFinished?
    ensures LastCalls(bodies + more) == LastCalls(bodies)
    ensures |HistoryOf(bodies + more)| == |HistoryOf(bodies)| + |ResultsIn(more)|
              && HistoryOf(bodies) <= HistoryOf(bodies + more)
    ensures FinishesKnown(bodies + more, |bodies + more|) <==>
            FinishesKnown(bodies, |bodies|) && forall r :: r in ResultsIn(more) ==> r.callId in Ids(LastCalls(bodies))
  {
    hide FinishesKnown;
    if more == [] {
      assert bodies + more == bodies;
    } else {
      var n := |more| - 1;
      var before := bodies + more[..n];
      ResultsKnownIff(bodies, more[..n]);
      assert bodies + more == before + [more[n]] && (before + [more[n]])[..|before|] == before;
      assert more[n] in more;
      hide LastCalls, HistoryOf, ResultsIn;
      KnownExtendIff(before, more[n]);
      if more[n].ToolFinished? {
        assert ResultsIn(more) == ResultsIn(more[..n]) + [more[n].result] by { LastResult(more); }
        IsAmong(LastCalls(bodies), more[n].result.callId);
      } else {
        LastResult(more);
      }
    }
  }

  /** Which replacements a journal survives. Behind one, the calls it leaves open are reconciled in
      order, at once or after requests that were interrupted, in one go or in several that failed
      commits cut short, with environments in between. However far that has come, the journal can be
      resumed exactly when it could before and each call answered so far belongs to the response
      journalled last: in the end, each call the replacement leaves open. */
  lemma {:induction false} ResumableIffCallsKnown(bodies: seq<RecordBody>, items: seq<Item>, usage: Option<Usage>,
                                                  more: seq<RecordBody>)
    requires forall b :: b in more ==> AddsNoItem(b) || b.ToolFinished?
    requires AnswersFirst(ResultsIn(more), Unresolved(items))
    ensures var all := bodies + [ContextReplaced(items, usage)] + more;
            && |HistoryOf(all)| == |items| + |ResultsIn(more)| && items <= HistoryOf(all)
            && (FinishesKnown(all, |all|) <==>
                FinishesKnown(bodies, |bodies|)
                && forall i :: 0 <= i < |ResultsIn(more)| ==> Unresolved(items)[i].callId in Ids(LastCalls(bodies)))
            && (|ResultsIn(more)| == |Unresolved(items)| ==>
                  (FinishesKnown(all, |all|) <==>
                   FinishesKnown(bodies, |bodies|) && forall c :: c in Unresolved(items) ==>
                     c.callId in Ids(LastCalls(bodies))))
  {
    hide LastCalls, FinishesKnown, Unresolved, HistoryOf, Ids, ResultsIn;
    var replaced := bodies + [ContextReplaced(items, usage)];
    ReplacedHistory(bodies, items, usage);
    KnownExtendIff(bodies, ContextReplaced(items, usage));
    ResultsKnownIff(replaced, more);
  }

  lemma {:induction false} ReplacedHistory(bodies: seq<RecordBody>, items: seq<Item>, usage: Option<Usage>)
    ensures HistoryOf(bodies + [ContextReplaced(items, usage)]) == items
  {
  }

  /** That responses are accounted for is needed: a policy may return a final assistant item with
      calls of its own, and the validation lets it pass; reconciliation then answers them, and the
      journal this leaves is one the projection refuses. */
  lemma {:induction false} ForeignCallsBreakResume(assembly: Assembly, call: ToolCall)
    ensures var item := AssistantItem(Origin("", ""), [CallBlock(call)]);
            var trace := [Committed(Environment(assembly), false),
                          Committed(ContextReplaced([Assistant(item)], None), false),
                          Committed(ToolFinished(Reconciled(call, false), None), true)];
            Run(trace).Some? && ReplacementOk([Assistant(item)])
            && Unresolved([Assistant(item)]) == [call]
            && !FinishesKnown(Bodies(trace), |Bodies(trace)|)
  {
    hide Step, Bodies, LastCalls, Unresolved, ReplacementOk, KeepsPending, FinishesKnown;
    var item := AssistantItem(Origin("", ""), [CallBlock(call)]);
    var e0 := Committed(Environment(assembly), false);
    var e1 := Committed(ContextReplaced([Assistant(item)], None), false);
    var e2 := Committed(ToolFinished(Reconciled(call, false), None), true);
    assert Calls(item) == [call] by { assert CallsIn(item.blocks[1..]) == []; }
    ForeignUnresolved(item, call);
    ForeignRun(e0, e1, e2, item, call);
    RunAppend([e0, e1], e2);
    assert [e0, e1] + [e2] == [e0, e1, e2];
    assert Bodies([e0, e1, e2]) == [e0.body, e1.body, e2.body];
    ForeignUnknown(e0.body, e1.body, e2.body);
  }

  lemma {:induction false} ForeignRun(e0: Event, e1: Event, e2: Event, item: AssistantItem, call: ToolCall)
    requires Calls(item) == [call]
    requires e0.Committed? && e0.body.Environment?
    requires e1 == Committed(ContextReplaced([Assistant(item)], None), false)
    requires e2 == Committed(ToolFinished(Reconciled(call, false), None), true)
    ensures Bodies([e0, e1]) == [e0.body, e1.body]
    ensures Run([e0, e1]).Some? && Step(Run([e0, e1]).value, e2).Some?
  {
    hide Run, Bodies, CallsIn, KeepsPending;
    EmptyState();
    RunAppend([], e0);
    RunAppend([e0], e1);
    assert [] + [e0] == [e0] && [e0] + [e1] == [e0, e1];
    ForeignUnresolved(item, call);
    hide Unresolved;
  }

  lemma {:induction false} ForeignUnknown(b0: RecordBody, b1: RecordBody, b2: RecordBody)
    requires b0.Environment? && b1.ContextReplaced? && b2.ToolFinished?
    ensures !FinishesKnown([b0, b1, b2], 3)
  {
    var bodies := [b0, b1, b2];
    assert bodies[..2] == [b0, b1] && [b0, b1][..1] == [b0];
    assert LastCalls([b0]) == [];
    assert bodies[2].ToolFinished?;
  }

  lemma {:induction false} ForeignUnresolved(item: AssistantItem, call: ToolCall)
    requires Calls(item) == [call]
    ensures Unresolved([Assistant(item)]) == [call] && ReplacementOk([Assistant(item)])
  {
    hide CallsIn;
    assert ResultIds([]) == {} && Without([], {}) == [] && [call][1..] == [];
    assert [Assistant(item)][1..] == [];
  }
}
