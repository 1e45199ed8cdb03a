/** What the records of an agent say beside its history: the inbox messages it took, the user's
    first message, and the points at which a process can have stopped. */
module Records {
  import opened Contracts
  import opened Transcript
  import opened Trace
  import opened Resume
  import opened AgentInbox
  import opened Plan
  import Compaction

  function InboxRecords(bodies: seq<RecordBody>): seq<(InboxKind, string)> {
    if bodies == [] then []
    else
      var b := bodies[|bodies| - 1];
      InboxRecords(bodies[..|bodies| - 1]) + if b.InboxRecord? then [(b.kind, b.text)] else []
  }

  function Contents(messages: seq<Message>): (r: seq<(InboxKind, string)>)
    ensures |r| == |messages|
    ensures forall i :: 0 <= i < |messages| ==> r[i] == (messages[i].kind, messages[i].text)
  {
    seq(|messages|, i requires 0 <= i < |messages| => (messages[i].kind, messages[i].text))
  }

  lemma {:induction false} InboxRecordsAppend(bodies: seq<RecordBody>, b: RecordBody)
    ensures InboxRecords(bodies + [b]) == InboxRecords(bodies) + if b.InboxRecord? then [(b.kind, b.text)] else []
  {
    assert (bodies + [b])[..|bodies + [b]| - 1] == bodies;
  }

  /** The record of a delivered message, or of something else, keeps the account of messages. */
  lemma {:induction false} InboxAccount(bodies: seq<RecordBody>, body: RecordBody, base: seq<(InboxKind, string)>,
                                        delivered: seq<Message>, m: Option<Message>)
    requires InboxRecords(bodies) == base + Contents(delivered)
    requires body.InboxRecord? <==> m.Some?
    requires m.Some? ==> body == InboxRecord(m.value.kind, m.value.text)
    ensures InboxRecords(bodies + [body]) == base + Contents(delivered + if m.Some? then [m.value] else [])
  {
    hide InboxRecords;
    InboxRecordsAppend(bodies, body);
    var more := delivered + if m.Some? then [m.value] else [];
    assert Contents(more) == Contents(delivered) + if m.Some? then [(m.value.kind, m.value.text)] else [];
  }

  /** The first plain user message stays, and there is still at most one summary, in first place. */
  ghost predicate KeepsWords(history: seq<Item>, items: seq<Item>) {
    && Compaction.FirstPlain(items) == Compaction.FirstPlain(history)
    && (Compaction.SummaryFirst(history) ==> Compaction.SummaryFirst(items))
  }

  /** Each replacement the journal holds kept the first plain user message of what it replaced, and
      brought in no second summary. */
  ghost predicate KeepsTask(records: seq<JournalRecord>) {
    records == []
    || (var m := |records| - 1;
        KeepsTask(records[..m]) && SameTask(records[m].body, HistoryOf(BodiesOf(records[..m]))))
  }

  ghost predicate SameTask(body: RecordBody, history: seq<Item>) {
    body.ContextReplaced? ==> KeepsWords(history, body.items)
  }

  lemma NoTaskYet()
    ensures KeepsTask([])
  {
  }

  lemma {:induction false} KeepsTaskAppend(records: seq<JournalRecord>, record: JournalRecord)
    requires KeepsTask(records) && SameTask(record.body, HistoryOf(BodiesOf(records)))
    ensures KeepsTask(records + [record])
  {
    hide HistoryOf, BodiesOf, SameTask;
    assert (records + [record])[..|records + [record]| - 1] == records;
  }

  lemma {:induction false} KeepsTaskPrefix(records: seq<JournalRecord>, n: nat)
    requires KeepsTask(records) && n <= |records|
    ensures KeepsTask(records[..n])
  {
    hide HistoryOf, BodiesOf, SameTask;
    if n == |records| {
      assert records[..n] == records;
    } else {
      var m := |records| - 1;
      KeepsTaskPrefix(records[..m], n);
      assert records[..m][..n] == records[..n];
    }
  }

  /** What a record adds keeps the first plain user message, if there was one. */
  lemma {:induction false} ApplyKeepsTask(history: seq<Item>, body: RecordBody)
    requires SameTask(body, history) && Compaction.FirstPlain(history).Some?
    ensures Compaction.FirstPlain(Apply(history, body)) == Compaction.FirstPlain(history)
  {
    hide Compaction.FirstPlain;
    var after := Apply(history, body);
    if |after| == |history| + 1 && after[..|history|] == history {
      assert after == history + [after[|history|]];
      Compaction.FirstPlainConcat(history, [after[|history|]]);
    }
  }

  lemma {:induction false} TaskStays(records: seq<JournalRecord>, i: nat, j: nat)
    requires KeepsTask(records) && i <= j <= |records|
    ensures var task := Compaction.FirstPlain(HistoryOf(BodiesOf(records[..i])));
            task.Some? ==> Compaction.FirstPlain(HistoryOf(BodiesOf(records[..j]))) == task
  {
    hide SameTask, Apply, Compaction.FirstPlain, HistoryOf, KeepsTask, BodiesOf;
    if i < j {
      TaskStays(records, i, j - 1);
      KeepsTaskPrefix(records, j);
      LastKeepsTask(records[..j]);
      assert records[..j][..j - 1] == records[..j - 1];
    }
  }

  lemma {:induction false} LastKeepsTask(records: seq<JournalRecord>)
    requires records != [] && KeepsTask(records)
    ensures var task := Compaction.FirstPlain(HistoryOf(BodiesOf(records[..|records| - 1])));
            task.Some? ==> Compaction.FirstPlain(HistoryOf(BodiesOf(records))) == task
  {
    hide SameTask, Apply, Compaction.FirstPlain;
    var m := |records| - 1;
    var before, bodies := BodiesOf(records[..m]), BodiesOf(records);
    assert bodies[..m] == before && bodies[m] == records[m].body;
    if Compaction.FirstPlain(HistoryOf(before)).Some? {
      ApplyKeepsTask(HistoryOf(before), records[m].body);
    }
  }

  /** Whatever is sent later still shows the first user message that was sent before. */
  lemma {:induction false} TaskIsSent(records: seq<JournalRecord>, trace: seq<Event>, k: nat, m: nat)
    requires Run(trace).Some? && Journals(records, trace) && KeepsTask(records)
    requires k <= m < |trace| && trace[k].Requested? && trace[m].Requested?
    ensures Compaction.FirstPlain(trace[k].history).Some? ==>
              Compaction.FirstPlain(trace[m].history) == Compaction.FirstPlain(trace[k].history)
  {
    hide Run, KeepsTask, HistoryOf, Compaction.FirstPlain, Bodies, WellFormed;
    RequestsAreWellFormed(trace, k);
    RequestsAreWellFormed(trace, m);
    JournalWas(records, trace, k);
    JournalWas(records, trace, m);
    BodiesOfPrefix(trace[..m], k);
    assert trace[..m][..k] == trace[..k];
    TaskStays(records, |Bodies(trace[..k])|, |Bodies(trace[..m])|);
  }

  /** Once a request showed a first plain user message, every later one shows the same. */
  ghost predicate SendsTask(trace: seq<Event>) {
    forall k, m :: 0 <= k <= m < |trace| && trace[k].Requested? && trace[m].Requested? ==>
                     ShowsTask(trace[k].history, trace[m].history)
  }

  predicate ShowsTask(before: seq<Item>, after: seq<Item>) {
    Compaction.FirstPlain(before).Some? ==> Compaction.FirstPlain(after) == Compaction.FirstPlain(before)
  }

  lemma {:induction false} TaskIsAlwaysSent(records: seq<JournalRecord>, trace: seq<Event>)
    requires Run(trace).Some? && Journals(records, trace) && KeepsTask(records)
    ensures SendsTask(trace)
  {
    hide Run, KeepsTask, Journals, Compaction.FirstPlain;
    forall k, m | 0 <= k <= m < |trace| && trace[k].Requested? && trace[m].Requested?
      ensures ShowsTask(trace[k].history, trace[m].history)
    {
      TaskIsSent(records, trace, k, m);
    }
  }

  /** No user input passes for a summary. */
  predicate NoMarkedInput(records: seq<JournalRecord>) {
    forall r :: r in records ==> !IsMarked(r.body)
  }

  predicate IsMarked(body: RecordBody) {
    body.UserInputRecord? && SUMMARY_MARKER <= body.text
  }

  lemma {:induction false} ApplyKeepsSummaryFirst(history: seq<Item>, body: RecordBody)
    requires SameTask(body, history) && !IsMarked(body) && Compaction.SummaryFirst(history)
    ensures Compaction.SummaryFirst(Apply(history, body))
  {
    hide Compaction.FirstPlain;
    var after := Apply(history, body);
    if !body.ContextReplaced? {
      forall i | 0 < i < |after| ensures !IsSummaryItem(after[i]) {
        if i < |history| { assert after[i] == history[i]; }
      }
    }
  }

  lemma {:induction false} SummaryStaysFirst(records: seq<JournalRecord>)
    requires KeepsTask(records) && NoMarkedInput(records)
    ensures Compaction.SummaryFirst(HistoryOf(BodiesOf(records)))
  {
    hide SameTask, Apply, IsMarked;
    if records != [] {
      hide Compaction.SummaryFirst;
      var m := |records| - 1;
      SummaryStaysFirst(records[..m]);
      var before, bodies := BodiesOf(records[..m]), BodiesOf(records);
      assert bodies[..m] == before && bodies[m] == records[m].body;
      ApplyKeepsSummaryFirst(HistoryOf(before), records[m].body);
    }
  }

  /** While no user's text begins with the marker every request shows at most one summary, and in
      first place. */
  ghost predicate SendsOneSummary(trace: seq<Event>) {
    forall k :: 0 <= k < |trace| && trace[k].Requested? ==> Compaction.SummaryFirst(trace[k].history)
  }

  lemma {:induction false} OneSummaryIsSent(records: seq<JournalRecord>, trace: seq<Event>)
    requires Run(trace).Some? && Journals(records, trace) && KeepsTask(records) && NoMarkedInput(records)
    ensures SendsOneSummary(trace)
  {
    hide Run, KeepsTask, HistoryOf, Bodies, WellFormed, Compaction.SummaryFirst, IsMarked;
    forall k | 0 <= k < |trace| && trace[k].Requested? ensures Compaction.SummaryFirst(trace[k].history) {
      RequestsAreWellFormed(trace, k);
      JournalWas(records, trace, k);
      var n := |Bodies(trace[..k])|;
      KeepsTaskPrefix(records, n);
      SummaryStaysFirst(records[..n]);
    }
  }

  lemma {:induction false} HonoursAppend(trace: seq<Event>, e: Event)
    requires HonoursCancel(trace) && (e.Requested? || e.Permitted? ==> !CancelledAt(trace))
    requires Run(trace).Some? && GivesUp(e, Run(trace).value.executed) ==> CancelledAt(trace)
    ensures HonoursCancel(trace + [e])
    ensures CancelledAt(trace + [e]) ==
            if e.TurnBegan? then e.cancelled else if e.CancelFired? then true else if e.Crashed? then false
              else CancelledAt(trace)
  {
    hide Run, GivesUp;
    assert (trace + [e])[..|trace + [e]| - 1] == trace;
  }

  lemma {:induction false} JournalsAppend(records: seq<JournalRecord>, trace: seq<Event>, body: RecordBody,
                                          reconciling: bool)
    requires Journals(records, trace)
    ensures Journals(records + [JournalRecord(Saturated(|records|), body)], trace + [Committed(body, reconciling)])
  {
    hide Bodies;
    RunAppend(trace, Committed(body, reconciling));
  }

  lemma {:induction false} JournalsSilent(records: seq<JournalRecord>, trace: seq<Event>, e: Event)
    requires Journals(records, trace) && !e.Committed?
    ensures Journals(records, trace + [e]) && Bodies(trace + [e]) == Bodies(trace)
  {
    hide Bodies;
    RunAppend(trace, e);
    assert Bodies(trace) + [] == Bodies(trace);
  }

  lemma CrashKeeps(s: State)
    requires Coherent(s)
    ensures Step(s, Crashed) == Some(s.(running := {}, sent := false)) && Coherent(s.(running := {}, sent := false))
  {
    hide KeepsPending, DistinctIds, Ids;
  }

  lemma BodiesLength(records: seq<JournalRecord>, trace: seq<Event>)
    requires Journals(records, trace)
    ensures BodiesOf(records) == Bodies(trace) && |records| == |Bodies(trace)|
  {
    hide Bodies;
  }

  lemma NoContents()
    ensures Contents([]) == []
  {
  }

  /** The started flags name exactly the started calls. */
  lemma StartedFlags(calls: seq<ToolCall>, started: set<string>)
    ensures var flagged := set u | u in WithStarted(calls, started) && u.started :: u.call.callId;
            forall c :: c in calls ==> (c.callId in flagged <==> c.callId in started)
  {
    var flags := WithStarted(calls, started);
    forall c | c in calls && c.callId in started
      ensures exists u :: u in flags && u.started && u.call.callId == c.callId
    {
      var i :| 0 <= i < |calls| && calls[i] == c;
      assert flags[i] in flags;
    }
  }

  /** A journal without replacements is one whose every request was well-formed. */
  lemma NothingReplaced(records: seq<JournalRecord>, trace: seq<Event>)
    requires Run(trace).Some? && Journals(records, trace)
    requires forall r :: r in records ==> !r.body.ContextReplaced?
    ensures forall k :: 0 <= k < |trace| && trace[k].Requested? ==> WellFormed(trace[k].history)
  {
    hide Run, WellFormed, Bodies, IsReplacement;
    forall b | b in BodiesOf(records) ensures !b.ContextReplaced? {
      var m :| 0 <= m < |BodiesOf(records)| && BodiesOf(records)[m] == b;
      assert records[m] in records;
    }
    forall i | 0 <= i < |trace| ensures !IsReplacement(trace[i]) {
      CommittedIsInBodies(trace, i);
    }
    forall k | 0 <= k < |trace| && trace[k].Requested? ensures WellFormed(trace[k].history) {
      UnreplacedRequestsAreWellFormed(trace, k);
    }
  }

  lemma {:induction false} CommittedIsInBodies(trace: seq<Event>, i: nat)
    requires i < |trace|
    ensures trace[i].Committed? ==> trace[i].body in Bodies(trace)
    ensures IsReplacement(trace[i]) ==> trace[i].Committed? && trace[i].body.ContextReplaced?
  {
    var m := |trace| - 1;
    if i < m { CommittedIsInBodies(trace[..m], i); }
  }

  lemma AllRequestsWellFormed(trace: seq<Event>)
    requires Run(trace).Some? && Run(trace).value.faithful
    ensures forall k :: 0 <= k < |trace| && trace[k].Requested? ==> WellFormed(trace[k].history)
  {
    hide Run, WellFormed, HistoryOf, Bodies;
    forall k | 0 <= k < |trace| && trace[k].Requested? ensures WellFormed(trace[k].history) {
      RequestsAreWellFormed(trace, k);
      FaithfulBefore(trace, k);
    }
  }

  /** A point of the trace at which exactly the first `durable` records were durable. */
  lemma CrashPoint(records: seq<JournalRecord>, trace: seq<Event>, durable: nat) returns (n: nat)
    requires Run(trace).Some? && HonoursCancel(trace) && Journals(records, trace) && durable <= |records|
    ensures n <= |trace| && Run(trace[..n]).Some? && HonoursCancel(trace[..n])
    ensures Journals(records[..durable], trace[..n])
  {
    hide Run, Bodies, HonoursCancel, Journals, Step;
    BodiesLength(records, trace);
    DurableAt(trace, durable);
    n :| n <= |trace| && |Bodies(trace[..n])| == durable;
    JournalWas(records, trace, n);
    RunPrefix(trace, n);
    HonoursPrefix(trace, n);
  }

  lemma {:induction false} DurableAt(trace: seq<Event>, durable: nat)
    requires durable <= |Bodies(trace)|
    ensures exists n: nat :: n <= |trace| && |Bodies(trace[..n])| == durable
  {
    if durable == |Bodies(trace)| {
      assert trace[..|trace|] == trace;
    } else {
      var m := |trace| - 1;
      DurableAt(trace[..m], durable);
      var n: nat :| n <= m && |Bodies(trace[..m][..n])| == durable;
      assert trace[..m][..n] == trace[..n];
    }
  }
}
