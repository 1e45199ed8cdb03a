/** The execution of one group of calls: who was admitted, who runs, who has returned, and what is
    recorded of them. */
module Execution {
  import opened Contracts
  import opened Transcript
  import opened Trace

  datatype Admitted = Settled(status: ToolStatus, content: string) | Started

  datatype ToolOutcome = ToolOutcome(status: ToolStatus, content: string)
  datatype Executed = Executed(outcome: ToolOutcome, endsTurn: bool, exitCode: Option<int>)

  /** The item a call's outcome becomes. */
  function ResultOf(call: ToolCall, admitted: Admitted, executed: Option<Executed>): Item {
    match admitted
    case Settled(status, content) => ToolResult(ToolResultItem(call.callId, call.name, status, content))
    case Started =>
      if executed.Some? then
        ToolResult(ToolResultItem(call.callId, call.name, executed.value.outcome.status,
                                  executed.value.outcome.content))
      else ToolResult(ToolResultItem(call.callId, call.name, ToolStatus.Unknown, UNKNOWN_OUTCOME))
  }

  /** The results of a group, in block order. */
  function GroupResults(calls: seq<ToolCall>, admitted: seq<Admitted>,
                        executed: seq<Option<Executed>>): (items: seq<Item>)
    requires |calls| == |admitted| == |executed|
    ensures |items| == |calls| && forall i :: 0 <= i < |calls| ==>
              items[i] == ResultOf(calls[i], admitted[i], executed[i])
  {
    seq(|calls|, i requires 0 <= i < |calls| => ResultOf(calls[i], admitted[i], executed[i]))
  }

  lemma {:induction false} TailIds(pending: seq<ToolCall>, n: nat)
    requires DistinctIds(pending) && n < |pending|
    ensures pending[n].callId !in Ids(pending[n + 1..])
    ensures Ids(pending[n..]) == Ids(pending[n + 1..]) + {pending[n].callId}
  {
    assert pending[n..] == [pending[n]] + pending[n + 1..];
    forall id | id in Ids(pending[n..]) ensures id in Ids(pending[n + 1..]) + {pending[n].callId} {
      var c :| c in pending[n..] && c.callId == id;
      assert c == pending[n] || c in pending[n + 1..];
    }
  }

  /** The outcome of some started call ends the turn. */
  predicate SomeEndsTurn(admitted: seq<Admitted>, executed: seq<Option<Executed>>)
    requires |admitted| == |executed|
  {
    exists i :: 0 <= i < |admitted| && admitted[i].Started? && executed[i].Some? && executed[i].value.endsTurn
  }

  /** The results of two runs of calls, one behind the other. */
  lemma ResultsConcat(calls: seq<ToolCall>, admitted: seq<Admitted>, executed: seq<Option<Executed>>,
                      calls': seq<ToolCall>, admitted': seq<Admitted>, executed': seq<Option<Executed>>)
    requires |calls| == |admitted| == |executed| && |calls'| == |admitted'| == |executed'|
    ensures GroupResults(calls + calls', admitted + admitted', executed + executed')
            == GroupResults(calls, admitted, executed) + GroupResults(calls', admitted', executed')
    ensures SomeEndsTurn(admitted + admitted', executed + executed')
            <==> SomeEndsTurn(admitted, executed) || SomeEndsTurn(admitted', executed')
  {
    hide ResultOf;
    var a, e := admitted + admitted', executed + executed';
    if SomeEndsTurn(admitted, executed) {
      var i :| 0 <= i < |admitted| && admitted[i].Started? && executed[i].Some? && executed[i].value.endsTurn;
      assert a[i].Started? && e[i].Some? && e[i].value.endsTurn;
    }
    if SomeEndsTurn(admitted', executed') {
      var i :| 0 <= i < |admitted'| && admitted'[i].Started? && executed'[i].Some? && executed'[i].value.endsTurn;
      assert a[|admitted| + i].Started? && e[|admitted| + i].Some? && e[|admitted| + i].value.endsTurn;
    }
  }

  lemma NoneEndsTurn(admitted: seq<Admitted>, executed: seq<Option<Executed>>)
    requires |admitted| == |executed|
    ensures !SomeEndsTurn(admitted[..0], executed[..0])
  {
  }

  lemma EndsTurnStep(admitted: seq<Admitted>, executed: seq<Option<Executed>>, i: nat)
    requires i < |admitted| == |executed|
    ensures SomeEndsTurn(admitted[..i + 1], executed[..i + 1]) <==>
            SomeEndsTurn(admitted[..i], executed[..i])
              || (admitted[i].Started? && executed[i].Some? && executed[i].value.endsTurn)
  {
    if SomeEndsTurn(admitted[..i], executed[..i]) {
      var k :| 0 <= k < i && admitted[..i][k].Started? && executed[..i][k].Some? && executed[..i][k].value.endsTurn;
      assert admitted[..i + 1][k].Started? && executed[..i + 1][k].Some? && executed[..i + 1][k].value.endsTurn;
    }
    if admitted[i].Started? && executed[i].Some? && executed[i].value.endsTurn {
      assert admitted[..i + 1][i].Started?;
    }
  }

  /** What is recorded of a started call that was given up before it began. */
  const GIVEN_UP := Executed(ToolOutcome(ToolStatus.Cancelled, CANCELLED_BEFORE_EXECUTION), false, None)

  /** How many of the first `n` calls were started. */
  function StartedAmong(admitted: seq<Admitted>, n: nat): nat
    requires n <= |admitted|
  {
    if n == 0 then 0 else StartedAmong(admitted, n - 1) + if admitted[n - 1].Started? then 1 else 0
  }

  /** The call executed, or it had to wait for as many others as may run and the token fired. */
  ghost predicate RanOrGivenUp(st: State, limit: nat, fired: bool, calls: seq<ToolCall>, admitted: seq<Admitted>,
                               executed: seq<Option<Executed>>, i: nat)
    requires i < |calls| == |admitted| == |executed| && executed[i].Some?
  {
    calls[i].callId in st.executed || (executed[i].value == GIVEN_UP && fired && StartedAmong(admitted, i) >= limit)
  }

  lemma StillRan(st: State, after: State, limit: nat, fired: bool, calls: seq<ToolCall>, admitted: seq<Admitted>,
                 executed: seq<Option<Executed>>, i: nat)
    requires i < |calls| == |admitted| == |executed| && executed[i].Some? && st.executed <= after.executed
    requires RanOrGivenUp(st, limit, fired, calls, admitted, executed, i)
    ensures RanOrGivenUp(after, limit, fired, calls, admitted, executed, i)
  {
    hide StartedAmong;
  }

  /** What is running is what the trace says runs, and each admitted call before `next` runs or
      has returned. */
  ghost predicate Tracks(before: State, st: State, limit: nat, fired: bool, calls: seq<ToolCall>,
                         admitted: seq<Admitted>, shared: bool,
                         next: nat, running: set<nat>, executed: seq<Option<Executed>>)
    requires |calls| == |admitted| == |executed| && next <= |calls|
  {
    && st == before.(executed := st.executed, running := st.running, overlapping := st.overlapping)
    && before.executed <= st.executed
    && |st.running| == |running| && (forall i :: i in running ==> 0 <= i < next && calls[i].callId in st.running)
    && (forall i :: next <= i < |calls| ==> calls[i].callId !in st.executed)
    && (forall i :: i in running ==> calls[i].callId in st.executed)
    && (forall i :: 0 <= i < next && admitted[i].Started? ==> i in running || executed[i].Some?)
    && (forall i :: 0 <= i < |calls| && executed[i].Some? ==>
                      i !in running && RanOrGivenUp(st, limit, fired, calls, admitted, executed, i))
    && (st.running != {} && next < |calls| ==> shared && st.overlapping)
  }

  lemma {:induction false} TracksNext(before: State, st: State, limit: nat, fired: bool, calls: seq<ToolCall>,
                                      admitted: seq<Admitted>, shared: bool,
                                      next: nat, running: set<nat>, executed: seq<Option<Executed>>)
    requires |calls| == |admitted| == |executed| && next < |calls|
    requires Tracks(before, st, limit, fired, calls, admitted, shared, next, running, executed)
    ensures calls[next].callId !in st.executed && |st.running| == |running|
              && (st.running != {} ==> shared && st.overlapping)
    ensures before.started == st.started && before.pending == st.pending
  {
  }

  lemma {:induction false} TracksStart(st: State, limit: nat, fired: bool, calls: seq<ToolCall>,
                                       admitted: seq<Admitted>, shared: bool, executed: seq<Option<Executed>>)
    requires |calls| == |admitted| == |executed| && st.running == {}
    requires forall i :: 0 <= i < |calls| ==> calls[i].callId !in st.executed && executed[i].None?
    ensures Tracks(st, st, limit, fired, calls, admitted, shared, 0, {}, executed)
  {
  }

  /** A call that was settled is passed over. */
  lemma {:induction false} TracksSkip(before: State, st: State, limit: nat, fired: bool, calls: seq<ToolCall>,
                                      admitted: seq<Admitted>, shared: bool,
                                      next: nat, running: set<nat>, executed: seq<Option<Executed>>)
    requires |calls| == |admitted| == |executed| && next < |calls| && admitted[next].Settled?
    requires Tracks(before, st, limit, fired, calls, admitted, shared, next, running, executed)
    ensures Tracks(before, st, limit, fired, calls, admitted, shared, next + 1, running, executed)
  {
  }

  lemma {:induction false} TracksDone(before: State, st: State, limit: nat, fired: bool, calls: seq<ToolCall>,
                                      admitted: seq<Admitted>, shared: bool,
                                      executed: seq<Option<Executed>>)
    requires |calls| == |admitted| == |executed|
              && Tracks(before, st, limit, fired, calls, admitted, shared, |calls|, {}, executed)
    ensures st.running == {} && st == before.(executed := st.executed, running := {}, overlapping := st.overlapping)
    ensures forall i :: 0 <= i < |calls| && admitted[i].Started? ==>
                          executed[i].Some? && RanOrGivenUp(st, limit, fired, calls, admitted, executed, i)
    ensures before.executed <= st.executed
  {
  }

  /** The next call is given up before it begins. */
  lemma {:induction false} TracksGivenUp(before: State, st: State, limit: nat, fired: bool, calls: seq<ToolCall>,
                                         admitted: seq<Admitted>, shared: bool,
                                         next: nat, running: set<nat>, executed: seq<Option<Executed>>)
    requires |calls| == |admitted| == |executed| && next < |calls|
    requires Tracks(before, st, limit, fired, calls, admitted, shared, next, running, executed)
    requires fired && StartedAmong(admitted, next) >= limit
    ensures Tracks(before, st, limit, fired, calls, admitted, shared, next + 1, running,
                   executed[next := Some(GIVEN_UP)])
  {
    assert next !in running;
  }

  /** Once fired, the token stays so. */
  lemma TracksFired(before: State, st: State, limit: nat, calls: seq<ToolCall>, admitted: seq<Admitted>, shared: bool,
                    next: nat, running: set<nat>, executed: seq<Option<Executed>>)
    requires |calls| == |admitted| == |executed| && next <= |calls|
    requires Tracks(before, st, limit, false, calls, admitted, shared, next, running, executed)
    ensures Tracks(before, st, limit, true, calls, admitted, shared, next, running, executed)
  {
  }

  /** The next call begins. */
  lemma {:induction false} TracksBegin(before: State, st: State, after: State, limit: nat, fired: bool,
                                       calls: seq<ToolCall>, admitted: seq<Admitted>, shared: bool,
                                       next: nat, running: set<nat>, executed: seq<Option<Executed>>)
    requires |calls| == |admitted| == |executed| && next < |calls| && DistinctIds(calls)
    requires Tracks(before, st, limit, fired, calls, admitted, shared, next, running, executed)
    requires !shared ==> |calls| == 1
    requires executed[next].None? && calls[next].callId !in st.running
    requires after == st.(executed := st.executed + {calls[next].callId},
                          running := st.running + {calls[next].callId}, overlapping := shared)
    ensures Tracks(before, after, limit, fired, calls, admitted, shared, next + 1, running + {next}, executed)
  {
    hide DistinctIds, Ids, StartedAmong, RanOrGivenUp;
    assert next !in running;
    assert |running + {next}| == |running| + 1;
    assert |st.running + {calls[next].callId}| == |st.running| + 1;
    forall i | 0 <= i < |calls| && executed[i].Some?
      ensures RanOrGivenUp(after, limit, fired, calls, admitted, executed, i)
    {
      StillRan(st, after, limit, fired, calls, admitted, executed, i);
    }
    forall i | next + 1 <= i < |calls| ensures calls[i].callId !in after.executed {
      DifferentIds(calls, next, i);
    }
  }

  /** The admitted calls wait for their results, their records durable. */
  ghost predicate MayStart(before: State, calls: seq<ToolCall>, admitted: seq<Admitted>)
    requires |calls| == |admitted|
  {
    forall i :: 0 <= i < |calls| ==>
      calls[i] in before.pending && (admitted[i].Started? ==> calls[i].callId in before.started)
  }

  ghost predicate NoneFrom(executed: seq<Option<Executed>>, next: nat) {
    forall i :: next <= i < |executed| ==> executed[i].None?
  }

  lemma PrefixDistinct(pending: seq<ToolCall>, calls: seq<ToolCall>)
    requires DistinctIds(pending) && calls <= pending
    ensures DistinctIds(calls)
  {
  }

  lemma DifferentIds(calls: seq<ToolCall>, i: nat, j: nat)
    requires DistinctIds(calls) && i < j < |calls|
    ensures calls[i].callId != calls[j].callId
  {
  }

  lemma {:induction false} TracksReturn(before: State, st: State, limit: nat, fired: bool, calls: seq<ToolCall>,
                                        admitted: seq<Admitted>, shared: bool,
                                        next: nat, running: set<nat>, executed: seq<Option<Executed>>, index: nat)
    requires |calls| == |admitted| == |executed| && next <= |calls| && DistinctIds(calls)
    requires Tracks(before, st, limit, fired, calls, admitted, shared, next, running, executed)
    requires index in running
    ensures index < next && calls[index].callId in st.running
    ensures forall x: Executed ::
              Tracks(before, st.(running := st.running - {calls[index].callId}), limit, fired, calls, admitted,
                     shared, next,
                     running - {index}, executed[index := Some(x)])
  {
    assert forall i :: 0 <= i < |calls| && i != index ==> calls[i].callId != calls[index].callId;
  }
}
