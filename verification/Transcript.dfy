/** Well-formed transcripts: every tool call is answered exactly once, in block order, before
    any item that is not a result. */
module Transcript {
  import opened Contracts

  /** Reads one item while the calls `pending` still lack their result. */
  function Advance(pending: seq<ToolCall>, item: Item): Option<seq<ToolCall>> {
    match item
    case ToolResult(result) =>
      if pending != [] && result.callId == pending[0].callId && result.name == pending[0].name
      then Some(pending[1..])
      else None
    case Assistant(assistant) =>
      if pending == [] then Some(Calls(assistant)) else None
    case _ =>
      if pending == [] then Some([]) else None
  }

  /** The calls without a result after `items`, or `None` when the items are not a transcript. */
  function PendingFrom(pending: seq<ToolCall>, items: seq<Item>): Option<seq<ToolCall>> {
    if items == [] then Some(pending)
    else
      var before := PendingFrom(pending, items[..|items| - 1]);
      if before.Some? then Advance(before.value, items[|items| - 1]) else None
  }

  function Pending(items: seq<Item>): Option<seq<ToolCall>> {
    PendingFrom([], items)
  }

  /** What a provider may be sent: a transcript in which nothing is left to answer. */
  predicate WellFormed(items: seq<Item>) {
    Pending(items) == Some([])
  }

  ghost predicate DistinctCalls(items: seq<Item>) {
    forall i :: 0 <= i < |items| && items[i].Assistant? ==> DistinctIds(Calls(items[i].assistant))
  }

  /** A transcript that still lacks exactly the results of `pending`. */
  ghost predicate KeepsPending(items: seq<Item>, pending: seq<ToolCall>) {
    Pending(items) == Some(pending) && DistinctCalls(items)
  }

  lemma {:induction false} PendingAppend(items: seq<Item>, item: Item)
    ensures Pending(items + [item]) ==
            if Pending(items).Some? then Advance(Pending(items).value, item) else None
  {
    assert (items + [item])[..|items + [item]| - 1] == items;
  }

  lemma {:induction false} PendingConcat(pending: seq<ToolCall>, a: seq<Item>, b: seq<Item>)
    ensures PendingFrom(pending, a + b) ==
            if PendingFrom(pending, a).Some? then PendingFrom(PendingFrom(pending, a).value, b) else None
  {
    if b == [] {
      assert a + b == a;
    } else {
      var n := |b| - 1;
      PendingConcat(pending, a, b[..n]);
      assert (a + b)[..|a + b| - 1] == a + b[..n];
      assert (a + b)[|a + b| - 1] == b[n];
    }
  }

  // ------------------------------------------------------- the unresolved calls

  /** The index of the last assistant item, or -1. */
  function LastAssistant(items: seq<Item>): (k: int)
    ensures -1 <= k < |items|
    ensures k >= 0 ==> items[k].Assistant?
    ensures forall i :: k < i < |items| ==> !items[i].Assistant?
  {
    if items == [] then -1
    else if items[|items| - 1].Assistant? then |items| - 1
    else LastAssistant(items[..|items| - 1])
  }

  function ResultIds(items: seq<Item>): set<string> {
    set i | 0 <= i < |items| && items[i].ToolResult? :: items[i].result.callId
  }

  function Without(calls: seq<ToolCall>, resolved: set<string>): seq<ToolCall> {
    if calls == [] then []
    else (if calls[0].callId in resolved then [] else [calls[0]]) + Without(calls[1..], resolved)
  }

  /** What the last response of a history still waits for. */
  function Unresolved(history: seq<Item>): seq<ToolCall> {
    var k := LastAssistant(history);
    if k < 0 then []
    else Without(Calls(history[k].assistant), ResultIds(history[k + 1..]))
  }

  /** What an item appended to a history leaves unresolved, whatever the history. */
  lemma {:induction false} UnresolvedAppend(history: seq<Item>, item: Item)
    ensures Unresolved(history + [item]) ==
            if item.Assistant? then Calls(item.assistant)
            else if item.ToolResult? then Without(Unresolved(history), {item.result.callId})
            else Unresolved(history)
  {
    hide CallsIn, LastAssistant, ResultIds, Without;
    var all, k := history + [item], LastAssistant(history);
    LastAssistantAppend(history, item);
    if item.Assistant? {
      assert all[|history| + 1..] == [];
      NoResults();
      WithoutNothing(Calls(item.assistant));
    } else if k >= 0 {
      assert all[k + 1..] == history[k + 1..] + [item] && all[k] == history[k];
      ResultIdsAppend(history[k + 1..], item);
      var resolved := ResultIds(history[k + 1..]);
      if item.ToolResult? {
        WithoutTwice(Calls(history[k].assistant), resolved, {item.result.callId});
      } else {
        assert resolved + {} == resolved;
      }
    } else if item.ToolResult? {
      NothingWithout({item.result.callId});
    }
  }

  lemma {:induction false} LastAssistantAppend(history: seq<Item>, item: Item)
    ensures LastAssistant(history + [item]) == if item.Assistant? then |history| else LastAssistant(history)
  {
    assert (history + [item])[..|history|] == history;
  }

  lemma NoResults()
    ensures ResultIds([]) == {}
  {
  }

  lemma NothingWithout(resolved: set<string>)
    ensures Without([], resolved) == []
  {
  }

  lemma {:induction false} ResultIdsAppend(items: seq<Item>, item: Item)
    ensures ResultIds(items + [item]) == ResultIds(items) + if item.ToolResult? then {item.result.callId} else {}
  {
    var all := items + [item];
    forall id
      ensures id in ResultIds(all) <==> id in ResultIds(items) || (item.ToolResult? && item.result.callId == id)
    {
      if id in ResultIds(items) {
        var i :| 0 <= i < |items| && items[i].ToolResult? && items[i].result.callId == id;
        assert all[i] == items[i];
      }
      if item.ToolResult? { assert all[|items|] == item; }
    }
  }

  lemma {:induction false} WithoutNothing(calls: seq<ToolCall>)
    ensures Without(calls, {}) == calls
  {
    if calls != [] { WithoutNothing(calls[1..]); }
  }

  lemma {:induction false} WithoutTwice(calls: seq<ToolCall>, a: set<string>, b: set<string>)
    ensures Without(Without(calls, a), b) == Without(calls, a + b)
  {
    if calls != [] {
      WithoutTwice(calls[1..], a, b);
      var rest := Without(calls[1..], a);
      if calls[0].callId in a {
        assert Without(calls, a) == rest;
      } else {
        assert Without(calls, a) == [calls[0]] + rest;
        assert ([calls[0]] + rest)[1..] == rest;
      }
    }
  }

  lemma {:induction false} WithoutAll(calls: seq<ToolCall>, resolved: set<string>)
    requires forall c :: c in calls ==> c.callId in resolved
    ensures Without(calls, resolved) == []
  {
    if calls != [] { WithoutAll(calls[1..], resolved); }
  }

  /** Of calls with distinct ids the first one's result resolves that one only. */
  lemma {:induction false} WithoutFirst(calls: seq<ToolCall>)
    requires calls != [] && DistinctIds(calls)
    ensures Without(calls, {calls[0].callId}) == calls[1..]
  {
    WithoutSuffix(calls, {calls[0].callId}, 1);
  }

  lemma {:induction false} WithoutSuffix(calls: seq<ToolCall>, resolved: set<string>, n: nat)
    requires n <= |calls|
    requires forall i :: 0 <= i < n ==> calls[i].callId in resolved
    requires forall i :: n <= i < |calls| ==> calls[i].callId !in resolved
    ensures Without(calls, resolved) == calls[n..]
  {
    if calls != [] {
      if n == 0 {
        WithoutSuffix(calls[1..], resolved, 0);
      } else {
        WithoutSuffix(calls[1..], resolved, n - 1);
        assert calls[1..][n - 1..] == calls[n..];
      }
    }
  }

  /** Behind an assistant item, results answer a prefix of its calls and nothing else. */
  lemma {:induction false} SuffixAnswersPrefix(calls: seq<ToolCall>, suffix: seq<Item>) returns (n: nat)
    requires PendingFrom(calls, suffix).Some?
    requires forall i :: 0 <= i < |suffix| ==> !suffix[i].Assistant?
    ensures n <= |calls| && PendingFrom(calls, suffix).value == calls[n..]
    ensures ResultIds(suffix) == Ids(calls[..n])
    ensures n < |calls| ==> |suffix| == n && forall i :: 0 <= i < |suffix| ==> suffix[i].ToolResult?
  {
    if suffix == [] {
      n := 0;
    } else {
      var m := |suffix| - 1;
      var init := suffix[..m];
      n := SuffixAnswersPrefix(calls, init);
      if suffix[m].ToolResult? {
        assert calls[..n + 1] == calls[..n] + [calls[n]];
        assert ResultIds(suffix) == ResultIds(init) + {suffix[m].result.callId} by {
          forall i | 0 <= i < |suffix| && suffix[i].ToolResult?
            ensures suffix[i].result.callId in ResultIds(init) + {suffix[m].result.callId} {
            if i < m { assert init[i] == suffix[i]; }
          }
          forall id | id in ResultIds(init) ensures id in ResultIds(suffix) {
            var i :| 0 <= i < |init| && init[i].ToolResult? && init[i].result.callId == id;
            assert suffix[i] == init[i];
          }
          assert suffix[m].result.callId in ResultIds(suffix);
        }
        n := n + 1;
      } else {
        assert ResultIds(suffix) == ResultIds(init) by {
          forall i | 0 <= i < |suffix| && suffix[i].ToolResult? ensures suffix[i].result.callId in ResultIds(init) {
            assert init[i] == suffix[i];
          }
          forall id | id in ResultIds(init) ensures id in ResultIds(suffix) {
            var i :| 0 <= i < |init| && init[i].ToolResult? && init[i].result.callId == id;
            assert suffix[i] == init[i];
          }
        }
      }
    }
  }

  /** Before the first assistant item nothing can be pending. */
  lemma {:induction false} NoAssistantNothingPending(items: seq<Item>)
    requires Pending(items).Some?
    requires forall i :: 0 <= i < |items| ==> !items[i].Assistant?
    ensures Pending(items) == Some([])
  {
    if items != [] {
      NoAssistantNothingPending(items[..|items| - 1]);
    }
  }

  /** Reconciliation looks for exactly the calls that are pending: what the history's last assistant item
      still lacks is what the transcript still lacks, reused ids of older calls notwithstanding. */
  lemma {:induction false} UnresolvedIsPending(history: seq<Item>)
    requires Pending(history).Some? && DistinctCalls(history)
    ensures Unresolved(history) == Pending(history).value
  {
    var k := LastAssistant(history);
    if k < 0 {
      NoAssistantNothingPending(history);
    } else {
      var head, tail := history[..k + 1], history[k + 1..];
      assert history == head + tail;
      PendingConcat([], head, tail);
      var calls := Calls(history[k].assistant);
      assert head[..|head| - 1] == history[..k] && head[|head| - 1] == history[k];
      var n := SuffixAnswersPrefix(calls, tail);
      forall i | n <= i < |calls| ensures calls[i].callId !in Ids(calls[..n]) {
      }
      forall i | 0 <= i < n ensures calls[i].callId in Ids(calls[..n]) {
        assert calls[..n][i] == calls[i];
      }
      WithoutSuffix(calls, ResultIds(tail), n);
    }
  }

  // ------------------------------------------------------- a replacement the core accepts

  ghost predicate CalledBefore(items: seq<Item>, i: nat, id: string)
    requires i <= |items|
  {
    exists j :: 0 <= j < i && items[j].Assistant? && id in Ids(Calls(items[j].assistant))
  }

  ghost predicate AnsweredAfter(items: seq<Item>, i: nat, id: string)
    requires i < |items|
  {
    exists j :: i < j < |items| && items[j].ToolResult? && items[j].result.callId == id
  }

  /** `id` is a call or result of item `i` whose other half is missing. */
  ghost predicate Offends(items: seq<Item>, i: nat, id: string)
    requires i < |items|
  {
    match items[i]
    case Assistant(a) => i + 1 < |items| && id in Ids(Calls(a)) && !AnsweredAfter(items, i, id)
    case ToolResult(r) => r.callId == id && !CalledBefore(items, i, id)
    case _ => false
  }

  ghost predicate ReplacementOk(items: seq<Item>) {
    forall i, id :: 0 <= i < |items| ==> !Offends(items, i, id)
  }

  /** `validate_replacement`: the first offending call or result, if there is one. */
  method ValidateReplacement(items: seq<Item>) returns (r: Result<(), string>)
    ensures r.Ok? <==> ReplacementOk(items)
    ensures r.Err? ==> exists i :: 0 <= i < |items| && Offends(items, i, r.error) && ReplacementOkUpTo(items, i)
  {
    var seen: set<string> := {};
    var index := 0;
    while index < |items|
      invariant 0 <= index <= |items|
      invariant forall id :: id in seen <==> CalledBefore(items, index, id)
      invariant ReplacementOkUpTo(items, index)
    {
      ghost var before := seen;
      match items[index] {
        case Assistant(a) =>
          var calls := Calls(a);
          seen := seen + set c | c in calls :: c.callId;
          if index + 1 != |items| {
            var n := 0;
            while n < |calls|
              invariant 0 <= n <= |calls|
              invariant forall m :: 0 <= m < n ==> AnsweredAfter(items, index, calls[m].callId)
            {
              var resolved := exists j ::
                                index < j < |items| && items[j].ToolResult? && items[j].result.callId == calls[n].callId;
              if !resolved {
                assert calls[n] in calls;
                assert Offends(items, index, calls[n].callId);
                return Err(calls[n].callId);
              }
              n := n + 1;
            }
            assert forall id :: !Offends(items, index, id);
          }
        case ToolResult(result) =>
          if result.callId !in seen {
            assert Offends(items, index, result.callId);
            return Err(result.callId);
          }
        case _ =>
      }
      assert forall id :: !Offends(items, index, id);
      assert forall id :: id in seen <==> CalledBefore(items, index + 1, id) by {
        forall id ensures id in seen <==> CalledBefore(items, index + 1, id) {
          if CalledBefore(items, index, id) { }
          if CalledBefore(items, index + 1, id) && !CalledBefore(items, index, id) {
            var j :| 0 <= j < index + 1 && items[j].Assistant? && id in Ids(Calls(items[j].assistant));
            assert j == index;
          }
          if id in seen && id !in before {
            assert items[index].Assistant? && id in Ids(Calls(items[index].assistant));
          }
        }
      }
      index := index + 1;
    }
    return Ok(());
  }

  ghost predicate ReplacementOkUpTo(items: seq<Item>, n: nat)
    requires n <= |items|
  {
    forall i, id :: 0 <= i < n ==> !Offends(items, i, id)
  }

  /** A pending call was made before, and a call made before was answered or is pending. */
  lemma {:induction false} TranscriptPairs(items: seq<Item>, n: nat)
    requires n <= |items| && Pending(items).Some?
    ensures Pending(items[..n]).Some?
    ensures forall c :: c in Pending(items[..n]).value ==> CalledBefore(items, n, c.callId)
    ensures forall i, id :: 0 <= i < n && items[i].Assistant? && id in Ids(Calls(items[i].assistant)) ==>
                              id in Ids(Pending(items[..n]).value)
                              || exists j :: i < j < n && items[j].ToolResult? && items[j].result.callId == id
    ensures forall i :: 0 <= i < n && items[i].ToolResult? ==> CalledBefore(items, i, items[i].result.callId)
  {
    assert items == items[..n] + items[n..];
    PendingConcat([], items[..n], items[n..]);
    if n > 0 {
      var m := n - 1;
      TranscriptPairs(items, m);
      assert items[..n] == items[..m] + [items[m]];
      PendingAppend(items[..m], items[m]);
      var before, after := Pending(items[..m]).value, Pending(items[..n]).value;
      forall c | c in after ensures CalledBefore(items, n, c.callId) {
        if items[m].Assistant? {
        } else {
          assert c in before;
        }
      }
      forall i, id | 0 <= i < n && items[i].Assistant? && id in Ids(Calls(items[i].assistant))
        ensures id in Ids(after) || exists j :: i < j < n && items[j].ToolResult? && items[j].result.callId == id
      {
        if i < m && id in Ids(before) {
          var c :| c in before && c.callId == id;
          assert before != [];
          if c != before[0] { assert c in after; }
        }
      }
      if items[m].ToolResult? {
        assert before[0] in before;
      }
    }
  }

  /** Every well-formed transcript is a replacement the core installs. */
  lemma {:induction false} WellFormedPasses(items: seq<Item>)
    requires WellFormed(items)
    ensures ReplacementOk(items)
  {
    TranscriptPairs(items, |items|);
    assert items[..|items|] == items;
    forall i, id | 0 <= i < |items| ensures !Offends(items, i, id) {
      if items[i].Assistant? && id in Ids(Calls(items[i].assistant)) {
        assert id !in Ids([]);
        assert AnsweredAfter(items, i, id);
      }
    }
  }

  /** Appending an assistant item to a well-formed transcript leaves every earlier pair intact. */
  lemma {:induction false} OpenAssistantPasses(items: seq<Item>)
    requires items != [] && items[|items| - 1].Assistant? && Pending(items).Some?
    ensures ReplacementOk(items)
  {
    var k := |items| - 1;
    TranscriptPairs(items, k);
    assert items == items[..k] + [items[k]];
    PendingAppend(items[..k], items[k]);
    forall i, id | 0 <= i < |items| ensures !Offends(items, i, id) {
      if items[i].Assistant? && i < k && id in Ids(Calls(items[i].assistant)) {
        assert id !in Ids([]);
        assert AnsweredAfter(items, i, id);
      }
    }
  }

  /** With calls pending, the core installs a transcript exactly when the calling item is
      the last one: one whose calls are answered in part is refused. */
  lemma {:induction false} PendingPassesIffLast(items: seq<Item>)
    requires Pending(items).Some? && Pending(items).value != [] && DistinctCalls(items)
    ensures ReplacementOk(items) <==> items[|items| - 1].Assistant?
  {
    var k := |items| - 1;
    if items[k].Assistant? {
      OpenAssistantPasses(items);
    } else {
      PartlyAnsweredOffends(items);
    }
  }

  lemma {:induction false} PartlyAnsweredOffends(items: seq<Item>)
    requires Pending(items).Some? && Pending(items).value != [] && DistinctCalls(items)
    requires !items[|items| - 1].Assistant?
    ensures !ReplacementOk(items)
  {
    UnresolvedIsPending(items);
    var k := LastAssistant(items);
    var open := Pending(items).value[0];
    var calls, tail := Calls(items[k].assistant), items[k + 1..];
    WithoutIsUnanswered(calls, ResultIds(tail), open);
    assert Offends(items, k, open.callId);
  }

  lemma {:induction false} WithoutIsUnanswered(calls: seq<ToolCall>, resolved: set<string>, c: ToolCall)
    requires c in Without(calls, resolved)
    ensures c in calls && c.callId !in resolved
  {
    if c != calls[0] || calls[0].callId in resolved {
      WithoutIsUnanswered(calls[1..], resolved, c);
    }
  }
}
