/** The units of a history, the tail to keep of them, and the replacement (plan.rs). */
module Plan {
  import opened Contracts
  import opened Transcript
  import opened Estimate

  const SUMMARY_MARKER := "[p1 context summary v1 — written by the harness from the earlier part of this session. The user's own messages follow verbatim.]"

  datatype Range = Range(start: nat, end: nat)

  /** The prelude (what precedes the first assistant item) and the units, in order. */
  datatype Segmentation = Segmentation(preludeEnd: nat, units: seq<Range>)

  /** Reading one more item: an assistant item opens a unit that starts where the one before it
      ended; a result directly behind a unit joins it. */
  function Extend(s: Segmentation, n: nat, item: Item): Segmentation {
    if item.Assistant? then
      var start := if s.units == [] then n else s.units[|s.units| - 1].end;
      Segmentation(if s.units == [] then n else s.preludeEnd, s.units + [Range(start, n + 1)])
    else if s.units == [] then Segmentation(n + 1, [])
    else
      var last := s.units[|s.units| - 1];
      if item.ToolResult? && last.end == n
      then s.(units := s.units[..|s.units| - 1] + [Range(last.start, n + 1)])
      else s
  }

  function SegmentsOf(items: seq<Item>): Segmentation {
    if items == [] then Segmentation(0, [])
    else Extend(SegmentsOf(items[..|items| - 1]), |items| - 1, items[|items| - 1])
  }

  lemma {:induction false} SegmentsAppend(items: seq<Item>, n: nat)
    requires n < |items|
    ensures SegmentsOf(items[..n + 1]) == Extend(SegmentsOf(items[..n]), n, items[n])
  {
    assert items[..n + 1][..n] == items[..n];
  }

  /** Items that are no assistant leave an empty segmentation a prelude. */
  lemma {:induction false} SegmentsPrelude(items: seq<Item>, n: nat)
    requires n <= |items| && forall i :: 0 <= i < n ==> !items[i].Assistant?
    ensures SegmentsOf(items[..n]) == Segmentation(n, [])
  {
    if n > 0 {
      SegmentsPrelude(items, n - 1);
      SegmentsAppend(items, n - 1);
    }
  }

  /** `segments`. */
  method Segments(items: seq<Item>) returns (s: Segmentation)
    ensures s == SegmentsOf(items)
  {
    hide SegmentsOf;
    var first := 0;
    while first < |items| && !items[first].Assistant?
      invariant 0 <= first <= |items|
      invariant forall i :: 0 <= i < first ==> !items[i].Assistant?
    {
      first := first + 1;
    }
    SegmentsPrelude(items, first);
    if first == |items| {
      assert items[..first] == items;
      return Segmentation(|items|, []);
    }
    var units: seq<Range> := [];
    var index := first;
    while index < |items|
      invariant first <= index <= |items|
      invariant index == first <==> units == []
      invariant SegmentsOf(items[..index]) == Segmentation(first, units)
      invariant units != [] ==> units[|units| - 1].end <= index
      invariant units != [] && index < |items| && items[index].ToolResult? ==> units[|units| - 1].end != index
    {
      if items[index].Assistant? {
        var start := if units == [] then first else units[|units| - 1].end;
        SegmentsAppend(items, index);
        var end := index + 1;
        while end < |items| && items[end].ToolResult?
          invariant index < end <= |items|
          invariant SegmentsOf(items[..end]) == Segmentation(first, units + [Range(start, end)])
        {
          SegmentsAppend(items, end);
          assert (units + [Range(start, end)])[..|units|] == units;
          end := end + 1;
        }
        units := units + [Range(start, end)];
        index := end;
      } else {
        SegmentsAppend(items, index);
        index := index + 1;
      }
    }
    assert items[..|items|] == items;
    return Segmentation(first, units);
  }

  // ------------------------------------------------------------------ what units are

  /** Units lie in order between the prelude and `n`, and none begins with a result. */
  ghost predicate Ordered(units: seq<Range>, preludeEnd: nat, items: seq<Item>, n: nat)
    requires n <= |items|
  {
    && (forall u :: 0 <= u < |units| ==>
      preludeEnd <= units[u].start < units[u].end <= n && !items[units[u].start].ToolResult?)
    && (forall u, v :: 0 <= u < v < |units| ==> units[u].end <= units[v].start)
  }

  ghost predicate NoAssistant(items: seq<Item>, i: nat, n: nat)
    requires n <= |items|
  {
    forall k :: i <= k < n ==> !items[k].Assistant?
  }

  /** Units begin behind the prelude, with the first assistant item; the prelude and what
      follows the last unit hold no assistant item, and no result follows it directly. */
  ghost predicate Cut(s: Segmentation, items: seq<Item>, n: nat)
    requires n <= |items|
  {
    && s.preludeEnd <= n && NoAssistant(items, 0, s.preludeEnd)
    && Ordered(s.units, s.preludeEnd, items, n)
    && if s.units == [] then s.preludeEnd == n
       else
         var end := s.units[|s.units| - 1].end;
         s.units[0].start == s.preludeEnd < n && items[s.preludeEnd].Assistant?
         && NoAssistant(items, end, n) && (end < n ==> !items[end].ToolResult?)
  }

  lemma {:induction false} AddUnit(units: seq<Range>, preludeEnd: nat, items: seq<Item>, start: nat, n: nat)
    requires n < |items| && Ordered(units, preludeEnd, items, n)
    requires preludeEnd <= start <= n && !items[start].ToolResult?
    requires units != [] ==> start == units[|units| - 1].end
    ensures Ordered(units + [Range(start, n + 1)], preludeEnd, items, n + 1)
  {
    var k := |units|;
    forall u | 0 <= u < k ensures units[u].end <= start {
      if u < k - 1 { assert units[u].end <= units[k - 1].start; }
    }
  }

  lemma {:induction false} GrowUnit(units: seq<Range>, preludeEnd: nat, items: seq<Item>, n: nat)
    requires n < |items| && Ordered(units, preludeEnd, items, n) && units != []
    ensures Ordered(units[..|units| - 1] + [Range(units[|units| - 1].start, n + 1)], preludeEnd, items, n + 1)
  {
  }

  lemma {:induction false} ExtendCut(s: Segmentation, items: seq<Item>, n: nat)
    requires n < |items| && Cut(s, items, n)
    ensures Cut(Extend(s, n, items[n]), items, n + 1)
  {
    if items[n].Assistant? {
      hide Ordered;
      AddUnit(s.units, if s.units == [] then n else s.preludeEnd, items, if s.units == [] then n else LastEnd(s, items, n), n);
    } else if s.units != [] && items[n].ToolResult? && s.units[|s.units| - 1].end == n {
      GrowUnit(s.units, s.preludeEnd, items, n);
    }
  }

  /** The end of the last unit begins no result. */
  function LastEnd(s: Segmentation, items: seq<Item>, n: nat): (end: nat)
    requires n < |items| && Cut(s, items, n) && s.units != [] && !items[n].ToolResult?
    ensures end == s.units[|s.units| - 1].end && s.preludeEnd <= end <= n && !items[end].ToolResult?
  {
    s.units[|s.units| - 1].end
  }

  lemma NothingCut(items: seq<Item>)
    ensures Cut(SegmentsOf(items[..0]), items, 0)
  {
  }

  lemma {:induction false} SegmentsCut(items: seq<Item>, n: nat)
    requires n <= |items|
    ensures Cut(SegmentsOf(items[..n]), items, n)
  {
    hide Cut, Extend, SegmentsOf;
    if n == 0 {
      NothingCut(items);
    } else {
      SegmentsCut(items, n - 1);
      SegmentsAppend(items, n - 1);
      ExtendCut(SegmentsOf(items[..n - 1]), items, n - 1);
    }
  }

  ghost predicate HoldsAssistant(items: seq<Item>, unit: Range) {
    exists k :: unit.start <= k < unit.end && k < |items| && items[k].Assistant?
  }

  /** Every unit holds an assistant item. */
  lemma {:induction false} UnitsHoldAssistants(items: seq<Item>, n: nat)
    requires n <= |items|
    ensures forall u :: 0 <= u < |SegmentsOf(items[..n]).units| ==>
              HoldsAssistant(items, SegmentsOf(items[..n]).units[u])
  {
    if n > 0 {
      hide SegmentsOf, HoldsAssistant, Extend, Cut;
      UnitsHoldAssistants(items, n - 1);
      SegmentsAppend(items, n - 1);
      SegmentsCut(items, n - 1);
      StepHoldsAssistants(SegmentsOf(items[..n - 1]), items, n - 1);
    }
  }

  lemma StepHoldsAssistants(s: Segmentation, items: seq<Item>, n: nat)
    requires n < |items| && forall u :: 0 <= u < |s.units| ==> HoldsAssistant(items, s.units[u])
    requires Cut(s, items, n)
    ensures forall u :: 0 <= u < |Extend(s, n, items[n]).units| ==>
              HoldsAssistant(items, Extend(s, n, items[n]).units[u])
  {
    var t := Extend(s, n, items[n]);
    forall u | 0 <= u < |t.units| ensures HoldsAssistant(items, t.units[u]) {
      if u < |s.units| {
        assert HoldsAssistant(items, s.units[u]);
      }
    }
  }

  /** A transcript is well-formed wherever it is cut before an item that is no result. */
  lemma {:induction false} CleanCut(items: seq<Item>, k: nat)
    requires Pending(items).Some? && k < |items| && !items[k].ToolResult?
    ensures Pending(items[..k]) == Some([])
  {
    assert items == items[..k] + ([items[k]] + items[k + 1..]);
    PendingConcat([], items[..k], [items[k]] + items[k + 1..]);
    var before := Pending(items[..k]).value;
    PendingConcat(before, [items[k]], items[k + 1..]);
    assert [items[k]][..0] == [];
  }

  // ------------------------------------------------------------------ the verbatim tail

  /** The estimate of the units from `u` on. */
  function TailTokens(items: seq<Item>, s: Segmentation, u: nat): nat
    requires u < |s.units| && s.units[u].start <= s.units[|s.units| - 1].end <= |items|
  {
    EstimateTokens(items[s.units[u].start..s.units[|s.units| - 1].end])
  }

  ghost predicate Fits(items: seq<Item>, s: Segmentation, keepRecent: nat, u: nat)
    requires Cut(s, items, |items|) && u < |s.units|
  {
    u == |s.units| - 1 || TailTokens(items, s, u) <= keepRecent
  }

  /** `start` begins the longest suffix of units that fits, at least the last unit. */
  ghost predicate IsTailStart(items: seq<Item>, s: Segmentation, keepRecent: nat, start: nat)
    requires Cut(s, items, |items|)
  {
    if s.units == [] then start == s.preludeEnd
    else exists t :: 0 <= t < |s.units| && start == s.units[t].start
                     && forall u :: 0 <= u < |s.units| ==> (u >= t <==> Fits(items, s, keepRecent, u))
  }

  lemma {:induction false} FitsMonotone(items: seq<Item>, s: Segmentation, keepRecent: nat, u: nat, v: nat)
    requires Cut(s, items, |items|) && u <= v < |s.units| && Fits(items, s, keepRecent, u)
    ensures Fits(items, s, keepRecent, v)
  {
    if u < v {
      SuffixEstimate(items, s.units[u].start, s.units[v].start, s.units[|s.units| - 1].end);
    }
  }

  /** `tail_start`. */
  method TailStart(items: seq<Item>, s: Segmentation, keepRecent: nat) returns (start: nat)
    requires Cut(s, items, |items|)
    ensures IsTailStart(items, s, keepRecent, start)
  {
    if s.units == [] {
      return s.preludeEnd;
    }
    var last := |s.units| - 1;
    var t := last;
    hide EstimateTokens;
    while t > 0
      invariant 0 <= t <= last
      invariant forall u :: t <= u <= last ==> Fits(items, s, keepRecent, u)
    {
      if TailTokens(items, s, t - 1) <= keepRecent {
        t := t - 1;
      } else {
        forall u | 0 <= u < t ensures !Fits(items, s, keepRecent, u) {
          if Fits(items, s, keepRecent, u) {
            FitsMonotone(items, s, keepRecent, u, t - 1);
          }
        }
        break;
      }
    }
    return s.units[t].start;
  }

  /** There is one such start. */
  lemma {:induction false} TailStartUnique(items: seq<Item>, s: Segmentation, keepRecent: nat, a: nat, b: nat)
    requires Cut(s, items, |items|) && IsTailStart(items, s, keepRecent, a) && IsTailStart(items, s, keepRecent, b)
    ensures a == b
  {
    if s.units != [] {
      hide Fits, Cut;
      var t :| 0 <= t < |s.units| && a == s.units[t].start
               && forall u :: 0 <= u < |s.units| ==> (u >= t <==> Fits(items, s, keepRecent, u));
      var w :| 0 <= w < |s.units| && b == s.units[w].start
               && forall u :: 0 <= u < |s.units| ==> (u >= w <==> Fits(items, s, keepRecent, u));
      assert Fits(items, s, keepRecent, t) && Fits(items, s, keepRecent, w);
    }
  }

  /** A larger budget never keeps less. */
  lemma {:induction false} TailGrowsWithBudget(items: seq<Item>, s: Segmentation, less: nat, more: nat, a: nat, b: nat)
    requires Cut(s, items, |items|) && less <= more
    requires IsTailStart(items, s, less, a) && IsTailStart(items, s, more, b)
    ensures b <= a
  {
    if s.units != [] {
      var t :| 0 <= t < |s.units| && a == s.units[t].start
               && forall u :: 0 <= u < |s.units| ==> (u >= t <==> Fits(items, s, less, u));
      var w :| 0 <= w < |s.units| && b == s.units[w].start
               && forall u :: 0 <= u < |s.units| ==> (u >= w <==> Fits(items, s, more, u));
      assert Fits(items, s, less, t);
      assert Fits(items, s, more, t);
      if w < t { assert s.units[w].end <= s.units[t].start; }
    }
  }

  /** Where the tail begins, nothing is pending and no unit is split. */
  lemma {:induction false} TailIsClean(items: seq<Item>, s: Segmentation, keepRecent: nat, start: nat)
    requires Cut(s, items, |items|) && IsTailStart(items, s, keepRecent, start) && Pending(items).Some?
    ensures start <= |items| && Pending(items[..start]) == Some([])
    ensures s.preludeEnd <= start
  {
    if s.units == [] {
      assert items[..start] == items;
      NoAssistantNothingPending(items);
    } else {
      CleanCut(items, start);
    }
  }

  /** `tail_units`. */
  function TailUnits(s: Segmentation, tailStart: nat): nat {
    CountFrom(s.units, tailStart)
  }

  function CountFrom(units: seq<Range>, tailStart: nat): nat {
    if units == [] then 0
    else (if units[0].start >= tailStart then 1 else 0) + CountFrom(units[1..], tailStart)
  }

  /** `in_tail_unit`: trailing items after the last unit belong to none. */
  predicate InTailUnit(index: nat, tailStart: nat, s: Segmentation) {
    tailStart <= index < (if s.units == [] then tailStart else s.units[|s.units| - 1].end)
  }

  // ------------------------------------------------------------------ the replacement

  predicate IsSummaryItem(item: Item) {
    item.User? && SUMMARY_MARKER <= item.text
  }

  /** User input, with or without attachments, that is no summary. */
  predicate IsPlainUser(item: Item) {
    (item.User? || item.UserContent?) && !IsSummaryItem(item)
  }

  /** The plain user messages among the first `n` items. */
  function Users(items: seq<Item>, n: nat): (users: seq<nat>)
    requires n <= |items|
    ensures forall k :: 0 <= k < |users| ==> users[k] < n && IsPlainUser(items[users[k]])
    ensures forall j, k :: 0 <= j < k < |users| ==> users[j] < users[k]
    ensures forall i :: 0 <= i < n && IsPlainUser(items[i]) ==> i in users
  {
    if n == 0 then []
    else Users(items, n - 1) + if IsPlainUser(items[n - 1]) then [n - 1] else []
  }

  function At(items: seq<Item>, indices: seq<nat>): (picked: seq<Item>)
    requires forall k :: 0 <= k < |indices| ==> indices[k] < |items|
    ensures |picked| == |indices| && forall k :: 0 <= k < |indices| ==> picked[k] == items[indices[k]]
  {
    seq(|indices|, k requires 0 <= k < |indices| => items[indices[k]])
  }

  ghost predicate InRange(indices: seq<nat>, items: seq<Item>) {
    forall k :: 0 <= k < |indices| ==> indices[k] < |items|
  }

  /** The first message and the newest from `m` on are within the budget together. */
  predicate NewestFit(items: seq<Item>, users: seq<nat>, budget: nat, m: nat)
    requires 1 <= m <= |users| && forall k :: 0 <= k < |users| ==> users[k] < |items|
  {
    CeilTokens(Spent(items, users, m)) <= budget
  }

  function Spent(items: seq<Item>, users: seq<nat>, m: nat): nat
    requires 1 <= m <= |users| && forall k :: 0 <= k < |users| ==> users[k] < |items|
  {
    ItemChars(items[users[0]]) + Chars(At(items, users[m..]))
  }

  lemma {:induction false} SpentStep(items: seq<Item>, users: seq<nat>, m: nat)
    requires 1 <= m <= |users| && InRange(users, items)
    ensures m == |users| ==> Spent(items, users, m) == ItemChars(items[users[0]])
    ensures m < |users| ==> Spent(items, users, m) == Spent(items, users, m + 1) + ItemChars(items[users[m]])
  {
    hide ItemChars;
    if m == |users| {
      assert At(items, users[m..]) == [];
    } else {
      assert users[m..] == [users[m]] + users[m + 1..];
      assert At(items, users[m..]) == [items[users[m]]] + At(items, users[m + 1..]);
      assert At(items, users[m..])[1..] == At(items, users[m + 1..]);
    }
  }

  /** The first message, always, and the longest run of newest ones that fits the budget. */
  ghost predicate IsKept(items: seq<Item>, users: seq<nat>, budget: nat, kept: seq<nat>)
    requires InRange(users, items)
  {
    if users == [] then kept == []
    else exists k :: 1 <= k <= |users| && kept == [users[0]] + users[k..]
                     && forall m :: 1 <= m < |users| ==> (m >= k <==> NewestFit(items, users, budget, m))
  }

  function Insert(sorted: seq<nat>, x: nat): seq<nat> {
    if sorted == [] || x <= sorted[0] then [x] + sorted else [sorted[0]] + Insert(sorted[1..], x)
  }

  function Sort(s: seq<nat>): seq<nat> {
    if s == [] then [] else Insert(Sort(s[..|s| - 1]), s[|s| - 1])
  }

  /** Pushing an older message behind the first one, then sorting, puts it second. */
  lemma {:induction false} SortPush(kept: seq<nat>, x: nat, first: nat, newer: seq<nat>)
    requires Sort(kept) == [first] + newer && first < x && (newer != [] ==> x <= newer[0])
    ensures Sort(kept + [x]) == [first] + ([x] + newer)
  {
    assert (kept + [x])[..|kept|] == kept;
    var sorted := [first] + newer;
    assert sorted[1..] == newer;
    assert Insert(newer, x) == [x] + newer;
  }

  lemma {:induction false} FitShrinks(items: seq<Item>, users: seq<nat>, budget: nat, m: nat, n: nat)
    requires 1 <= m <= n <= |users| && InRange(users, items) && NewestFit(items, users, budget, m)
    ensures NewestFit(items, users, budget, n)
  {
    hide CeilTokens, ItemChars;
    assert At(items, users[m..]) == At(items, users[m..n]) + At(items, users[n..]);
    CharsConcat(At(items, users[m..n]), At(items, users[n..]));
    CeilTokensMonotone(ItemChars(items[users[0]]) + Chars(At(items, users[n..])),
                       ItemChars(items[users[0]]) + Chars(At(items, users[m..])));
  }

  /** `kept_user_indices`. */
  method KeptUserIndices(items: seq<Item>, tailStart: nat, budget: nat) returns (kept: seq<nat>)
    requires tailStart <= |items|
    ensures IsKept(items, Users(items, tailStart), budget, kept)
  {
    hide IsKept, IsPlainUser;
    var users := Users(items, tailStart);
    if users == [] {
      NoneKept(items, budget);
      return [];
    }
    kept := NewestOf(items, users, budget);
  }

  /** The first message, then the newest ones back to the first that no longer fits. */
  method NewestOf(items: seq<Item>, users: seq<nat>, budget: nat) returns (kept: seq<nat>)
    requires InRange(users, items) && users != []
    requires forall j, k :: 0 <= j < k < |users| ==> users[j] < users[k]
    ensures IsKept(items, users, budget, kept)
  {
    hide CeilTokens, ItemChars, Insert, Sort, At, Spent, NewestFit, IsKept, AllFit;
    NoneFit(items, users, budget);
    var pushed := [users[0]];
    var used := ItemChars(items[users[0]]);
    SortOne(users[0]);
    SpentStep(items, users, |users|);
    var at := |users|;
    while at > 1
      invariant 1 <= at <= |users|
      invariant Sort(pushed) == [users[0]] + users[at..]
      invariant used == Spent(items, users, at)
      invariant AllFit(items, users, budget, at)
    {
      var index := users[at - 1];
      var cost := ItemChars(items[index]);
      SpentStep(items, users, at - 1);
      OneMore(items, users, budget, at);
      if CeilTokens(used + cost) > budget {
        KeptBy(items, users, budget, at, Sort(pushed));
        return Sort(pushed);
      }
      assert users[at - 1..] == [index] + users[at..];
      used := used + cost;
      SortPush(pushed, index, users[0], users[at..]);
      pushed := pushed + [index];
      at := at - 1;
    }
    KeptBy(items, users, budget, at, Sort(pushed));
    kept := Sort(pushed);
  }

  ghost predicate AllFit(items: seq<Item>, users: seq<nat>, budget: nat, at: nat)
    requires 1 <= at <= |users| && InRange(users, items)
  {
    forall m :: at <= m < |users| ==> NewestFit(items, users, budget, m)
  }

  lemma NoneFit(items: seq<Item>, users: seq<nat>, budget: nat)
    requires users != [] && InRange(users, items)
    ensures AllFit(items, users, budget, |users|)
  {
  }

  lemma NoneKept(items: seq<Item>, budget: nat)
    ensures IsKept(items, [], budget, [])
  {
  }

  lemma OneMore(items: seq<Item>, users: seq<nat>, budget: nat, at: nat)
    requires 2 <= at <= |users| && InRange(users, items) && AllFit(items, users, budget, at)
    ensures if CeilTokens(Spent(items, users, at - 1)) <= budget then AllFit(items, users, budget, at - 1)
            else !NewestFit(items, users, budget, at - 1)
  {
    hide CeilTokens, Spent;
  }

  lemma KeptBy(items: seq<Item>, users: seq<nat>, budget: nat, at: nat, kept: seq<nat>)
    requires 1 <= at <= |users| && InRange(users, items) && AllFit(items, users, budget, at)
    requires at == 1 || !NewestFit(items, users, budget, at - 1)
    requires kept == [users[0]] + users[at..]
    ensures IsKept(items, users, budget, kept)
  {
    hide NewestFit;
    if at > 1 {
      NoneOlderFits(items, users, budget, at - 1);
    }
  }

  lemma {:induction false} NoneOlderFits(items: seq<Item>, users: seq<nat>, budget: nat, n: nat)
    requires 1 <= n < |users| && InRange(users, items) && !NewestFit(items, users, budget, n)
    ensures forall m :: 1 <= m <= n ==> !NewestFit(items, users, budget, m)
  {
    hide NewestFit;
    forall m | 1 <= m <= n && NewestFit(items, users, budget, m) ensures false {
      FitShrinks(items, users, budget, m, n);
    }
  }

  lemma SortOne(x: nat)
    ensures Sort([x]) == [x]
  {
    assert [x][..0] == [];
  }

  /** `[summary] + kept user messages + tail`. */
  function Replacement(items: seq<Item>, kept: seq<nat>, tailStart: nat, summary: Item): seq<Item>
    requires tailStart <= |items| && forall k :: 0 <= k < |kept| ==> kept[k] < |items|
  {
    [summary] + At(items, kept) + items[tailStart..]
  }

  /** `build_replacement`. */
  method BuildReplacement(items: seq<Item>, tailStart: nat, budget: nat, summary: Item) returns (replacement: seq<Item>)
    requires tailStart <= |items|
    ensures exists kept ::
              IsKept(items, Users(items, tailStart), budget, kept) && InRange(kept, items)
              && replacement == Replacement(items, kept, tailStart, summary)
  {
    hide IsKept, Users;
    var kept := KeptUserIndices(items, tailStart, budget);
    KeptInRange(items, tailStart, budget, kept);
    replacement := [summary] + At(items, kept) + items[tailStart..];
    assert replacement == Replacement(items, kept, tailStart, summary);
  }

  lemma KeptUnique(items: seq<Item>, users: seq<nat>, budget: nat, a: seq<nat>, b: seq<nat>)
    requires InRange(users, items) && IsKept(items, users, budget, a) && IsKept(items, users, budget, b)
    ensures a == b
  {
    hide NewestFit;
    if users != [] {
      var j :| 1 <= j <= |users| && a == [users[0]] + users[j..]
               && forall m :: 1 <= m < |users| ==> (m >= j <==> NewestFit(items, users, budget, m));
      var k :| 1 <= k <= |users| && b == [users[0]] + users[k..]
               && forall m :: 1 <= m < |users| ==> (m >= k <==> NewestFit(items, users, budget, m));
      if j < |users| { assert j >= k <==> NewestFit(items, users, budget, j); }
      if k < |users| { assert k >= j <==> NewestFit(items, users, budget, k); }
    }
  }

  lemma KeptInRange(items: seq<Item>, tailStart: nat, budget: nat, kept: seq<nat>)
    requires tailStart <= |items| && IsKept(items, Users(items, tailStart), budget, kept)
    ensures InRange(kept, items)
    ensures forall k :: 0 <= k < |kept| ==> kept[k] < tailStart && IsPlainUser(items[kept[k]])
    ensures forall j, k :: 0 <= j < k < |kept| ==> kept[j] < kept[k]
    ensures Users(items, tailStart) != [] ==> kept != [] && kept[0] == Users(items, tailStart)[0]
  {
    hide NewestFit;
  }
}
