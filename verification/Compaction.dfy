/** What replacing a history keeps, whatever the budgets and whatever the summary says. */
module Compaction {
  import opened Contracts
  import opened Transcript
  import opened Estimate
  import opened Plan
  import opened Render
  import opened Engine

  // ------------------------------------------------------------------ pairing

  lemma {:induction false} UserItemsAnswerNothing(items: seq<Item>)
    requires forall i :: 0 <= i < |items| ==> items[i].User? || items[i].UserContent?
    ensures Pending(items) == Some([])
  {
    if items != [] {
      UserItemsAnswerNothing(items[..|items| - 1]);
    }
  }

  /** The replacement a summary is built into pairs exactly as the history it replaces: the
      calls pending in one are pending in the other. */
  lemma {:induction false} ReplacementKeepsPending(config: ContextConfig, history: seq<Item>, items: seq<Item>)
    requires Replaces(config, history, items) && Pending(history).Some? && DistinctCalls(history)
    ensures KeepsPending(items, Pending(history).value)
  {
    hide IsKept, IsTailStart, Cut, Acceptable, PendingFrom, SegmentsOf, DistinctCalls, Users;
    var answer: string, keep: nat, start: nat,
          kept: seq<nat> :| IsReplacement(config, history, items, answer, keep, start, kept);
    KeptInRange(history, start, config.userVerbatimTokens, kept);
    TailIsClean(history, SegmentsOf(history), keep, start);
    var head, tail := [SummaryItem(answer)] + At(history, kept), history[start..];
    UserItemsAnswerNothing(head);
    PendingConcat([], head, tail);
    assert history == history[..start] + tail;
    PendingConcat([], history[..start], tail);
    DistinctBehind(head, history, start);
  }

  lemma DistinctBehind(head: seq<Item>, history: seq<Item>, start: nat)
    requires start <= |history| && DistinctCalls(history)
    requires forall i :: 0 <= i < |head| ==> !head[i].Assistant?
    ensures DistinctCalls(head + history[start..])
  {
    hide DistinctIds, CallsIn;
    var items := head + history[start..];
    forall i | 0 <= i < |items| && items[i].Assistant? ensures DistinctIds(Calls(items[i].assistant)) {
      assert items[i] == history[start + (i - |head|)];
    }
  }

  lemma {:induction false} TrimKeepsPending(config: ContextConfig, history: seq<Item>, items: seq<Item>)
    requires Trims(config, history, items) && Pending(history).Some? && DistinctCalls(history)
    ensures KeepsPending(items, Pending(history).value)
  {
    hide Cut, IsTailStart, SegmentsOf;
    var start :| 0 <= start <= |history| && items == TrimTo(history, start, config.toolResultExcerptChars);
    TrimChangesContents(history, start, config.toolResultExcerptChars);
    ContentsDoNotPair(history, items);
  }

  /** Across the two crates: what the policy returns for a well-formed history is well-formed,
      and the core's own validation accepts it, for all budgets. */
  lemma {:induction false} PolicyPassesValidation(config: ContextConfig, history: seq<Item>, items: seq<Item>)
    requires Replaces(config, history, items) || Trims(config, history, items)
    requires WellFormed(history) && DistinctCalls(history)
    ensures WellFormed(items) && ReplacementOk(items)
  {
    hide Replaces, Trims, ReplacementOk, PendingFrom;
    if Replaces(config, history, items) {
      ReplacementKeepsPending(config, history, items);
    } else {
      TrimKeepsPending(config, history, items);
    }
    WellFormedPasses(items);
  }

  // ------------------------------------------------------------------ the user's words

  /** The first plain user message: what the session is about. */
  function FirstPlain(items: seq<Item>): Option<Item> {
    if items == [] then None
    else if IsPlainUser(items[0]) then Some(items[0])
    else FirstPlain(items[1..])
  }

  /** At most one summary, and it comes first. */
  ghost predicate SummaryFirst(items: seq<Item>) {
    forall i :: 0 < i < |items| ==> !IsSummaryItem(items[i])
  }

  lemma {:induction false} FirstPlainConcat(a: seq<Item>, b: seq<Item>)
    ensures FirstPlain(a + b) == if FirstPlain(a).Some? then FirstPlain(a) else FirstPlain(b)
  {
    hide IsPlainUser;
    if a == [] {
      assert a + b == b;
    } else {
      FirstPlainConcat(a[1..], b);
      assert (a + b)[1..] == a[1..] + b;
    }
  }

  lemma FirstPlainOf(item: Item)
    ensures FirstPlain([item]) == if IsPlainUser(item) then Some(item) else None
  {
    hide IsPlainUser;
    assert [item][1..] == [];
  }

  function FirstUser(items: seq<Item>, n: nat): Option<Item>
    requires n <= |items|
  {
    if Users(items, n) == [] then None else Some(items[Users(items, n)[0]])
  }

  lemma FirstUserStep(items: seq<Item>, n: nat)
    requires 0 < n <= |items|
    ensures FirstUser(items, n) ==
            if FirstUser(items, n - 1).Some? then FirstUser(items, n - 1)
            else if IsPlainUser(items[n - 1]) then Some(items[n - 1]) else None
  {
    hide IsPlainUser;
    var before := Users(items, n - 1);
    assert Users(items, n) == before + if IsPlainUser(items[n - 1]) then [n - 1] else [];
  }

  lemma NoFirst(items: seq<Item>)
    ensures FirstPlain(items[..0]) == None == FirstUser(items, 0)
  {
  }

  lemma {:induction false} FirstPlainIsFirstUser(items: seq<Item>, n: nat)
    requires n <= |items|
    ensures FirstPlain(items[..n]) == FirstUser(items, n)
  {
    hide IsPlainUser, FirstPlain, FirstUser;
    if n == 0 {
      NoFirst(items);
    } else {
      FirstPlainIsFirstUser(items, n - 1);
      assert items[..n] == items[..n - 1] + [items[n - 1]];
      FirstPlainConcat(items[..n - 1], [items[n - 1]]);
      FirstPlainOf(items[n - 1]);
      FirstUserStep(items, n);
    }
  }

  lemma SummaryItemIsSummary(answer: string)
    ensures IsSummaryItem(SummaryItem(answer)) && !IsPlainUser(SummaryItem(answer))
  {
    var text := SUMMARY_MARKER + "\n" + answer;
    assert text == SUMMARY_MARKER + ("\n" + answer);
  }

  /** A summary keeps the first plain user message, verbatim. */
  lemma {:induction false} ReplacementKeepsTask(config: ContextConfig, history: seq<Item>, items: seq<Item>)
    requires Replaces(config, history, items)
    ensures FirstPlain(items) == FirstPlain(history)
  {
    hide IsKept, IsTailStart, Cut, Acceptable, IsPlainUser, SegmentsOf, Users, FirstPlain, SummaryItem;
    var answer: string, keep: nat, start: nat,
          kept: seq<nat> :| IsReplacement(config, history, items, answer, keep, start, kept);
    KeptInRange(history, start, config.userVerbatimTokens, kept);
    FirstPlainIsFirstUser(history, start);
    assert history == history[..start] + history[start..];
    FirstPlainConcat(history[..start], history[start..]);
    FirstPlainConcat([SummaryItem(answer)] + At(history, kept), history[start..]);
    FirstPlainConcat([SummaryItem(answer)], At(history, kept));
    SummaryItemIsSummary(answer);
    FirstPlainOf(SummaryItem(answer));
    KeptFirst(history, start, config.userVerbatimTokens, kept);
  }

  lemma KeptFirst(history: seq<Item>, start: nat, budget: nat, kept: seq<nat>)
    requires start <= |history| && IsKept(history, Users(history, start), budget, kept)
    ensures InRange(kept, history)
    ensures FirstPlain(At(history, kept)) ==
              if Users(history, start) == [] then None else Some(history[Users(history, start)[0]])
  {
    hide NewestFit, Users;
    KeptInRange(history, start, budget, kept);
    if Users(history, start) == [] {
      assert At(history, kept) == [];
    }
  }

  /** A summary leaves one summary, in first place. */
  lemma {:induction false} ReplacementSummarizesOnce(config: ContextConfig, history: seq<Item>, items: seq<Item>)
    requires Replaces(config, history, items) && SummaryFirst(history)
    ensures SummaryFirst(items) && items != [] && IsSummaryItem(items[0])
  {
    hide IsKept, IsTailStart, Acceptable, SegmentsOf, Users, SummaryItem;
    var answer: string, keep: nat, start: nat,
          kept: seq<nat> :| IsReplacement(config, history, items, answer, keep, start, kept);
    hide Cut;
    KeptInRange(history, start, config.userVerbatimTokens, kept);
    SummaryItemIsSummary(answer);
    TailBehindSummary(history, SegmentsOf(history), keep, start);
    var n := 1 + |kept|;
    forall i | 0 < i < |items| ensures !IsSummaryItem(items[i]) {
      if i < n {
        assert items[i] == history[kept[i - 1]];
      } else {
        assert items[i] == history[start + (i - n)];
      }
    }
  }

  /** The tail starts behind a summary in first place, or at an item that is none. */
  lemma {:induction false} TailBehindSummary(history: seq<Item>, s: Segmentation, keep: nat, start: nat)
    requires Cut(s, history, |history|) && IsTailStart(history, s, keep, start)
    ensures start == 0 && history != [] ==> !IsSummaryItem(history[0])
  {
    hide Fits;
    if start == 0 && history != [] {
      assert s.units != [];
      var t :| 0 <= t < |s.units| && start == s.units[t].start;
      assert s.preludeEnd == 0;
    }
  }

  /** Everything behind the summary stood in the old history, in the same order, without
      repetition, and the whole tail of the fewest halvings is among it. */
  lemma {:induction false} ReplacementIsSubsequence(config: ContextConfig, history: seq<Item>, items: seq<Item>)
    returns (indices: seq<nat>)
    requires Replaces(config, history, items)
    ensures InRange(indices, history) && items != [] && items[1..] == At(history, indices)
    ensures forall j, k :: 0 <= j < k < |indices| ==> indices[j] < indices[k]
    ensures exists answer: string, keep: nat, start: nat, kept: seq<nat> ::
              IsReplacement(config, history, items, answer, keep, start, kept) && kept <= indices
              && forall i: nat :: start <= i < |history| ==> i in indices
  {
    hide IsKept, IsTailStart, Cut, Acceptable, SegmentsOf, Users, SummaryItem, FewestHalvings;
    var answer: string, keep: nat, start: nat,
          kept: seq<nat> :| IsReplacement(config, history, items, answer, keep, start, kept);
    KeptInRange(history, start, config.userVerbatimTokens, kept);
    var tail := seq(|history| - start, i requires 0 <= i => start + i);
    indices := kept + tail;
    assert items[1..] == At(history, kept) + history[start..];
    assert At(history, indices) == At(history, kept) + history[start..];
    forall i: nat | start <= i < |history| ensures i in indices {
      assert indices[|kept| + (i - start)] == i;
    }
  }

  // ------------------------------------------------------------------ what a compaction drops

  /** The tail is cut to fewer units than the summary left to it exactly when the replacement
      with the full tail was not acceptable. */
  lemma {:induction false} TailStaysIffAcceptable(config: ContextConfig, history: seq<Item>, items: seq<Item>,
                                                  answer: string,
                                                  keep: nat, start: nat, kept: seq<nat>,
                                                  full: seq<Item>, shown: nat, fullKept: seq<nat>)
    requires IsReplacement(config, history, items, answer, keep, start, kept)
    requires IsCandidate(config, history, full, answer, config.keepRecentTokens, shown, fullKept)
    ensures start == shown <==> Acceptable(config, history, full, shown)
    ensures Acceptable(config, history, full, shown) ==> items == full
    ensures shown <= start
  {
    hide Cut, IsTailStart, IsKept, Acceptable, SegmentsOf, Users, SummaryItem;
    var halvings: nat :| FewestHalvings(config, history, answer, keep, halvings);
    HalvingShrinks(config.keepRecentTokens, halvings);
    TailGrowsWithBudget(history, SegmentsOf(history), keep, config.keepRecentTokens, start, shown);
    if Acceptable(config, history, full, shown) {
      if halvings > 0 {
        assert TooLong(config, history, answer, Halved(config.keepRecentTokens, 0));
        var i, a: nat, k: seq<nat> :| IsCandidate(config, history, i, answer, config.keepRecentTokens, a, k)
              && !Acceptable(config, history, i, a);
        CandidateUnique(config, history, answer, config.keepRecentTokens, full, shown, fullKept, i, a, k);
      } else {
        CandidateUnique(config, history, answer, keep, full, shown, fullKept, items, start, kept);
      }
    } else if start == shown {
      KeptUnique(history, Users(history, start), config.userVerbatimTokens, kept, fullKept);
    }
  }

  /** The summary is made of nothing behind `shown`. Every item from there on is kept exactly when
      the replacement with the full tail was acceptable: below the threshold, or with a tail of a
      single unit. */
  lemma {:induction false} NothingDroppedIffFullTailFits(config: ContextConfig, history: seq<Item>, items: seq<Item>,
                                                         answer: string,
                                                         keep: nat, start: nat, kept: seq<nat>,
                                                         full: seq<Item>, shown: nat, fullKept: seq<nat>)
    requires IsReplacement(config, history, items, answer, keep, start, kept)
    requires IsCandidate(config, history, full, answer, config.keepRecentTokens, shown, fullKept)
    ensures (forall i :: shown <= i < |history| ==> i in kept || start <= i) <==>
              Acceptable(config, history, full, shown)
  {
    TailStaysIffAcceptable(config, history, items, answer, keep, start, kept, full, shown, fullKept);
    hide IsCandidate, Acceptable, IsReplacement;
    if shown < start {
      TailsDiffer(config, history, answer, items, keep, start, kept, full, shown, fullKept);
      DropsAnAnswer(history, shown, start, config.userVerbatimTokens, kept);
    }
  }

  lemma TailsDiffer(config: ContextConfig, history: seq<Item>, answer: string, items: seq<Item>,
                    keep: nat, start: nat, kept: seq<nat>, full: seq<Item>, shown: nat, fullKept: seq<nat>)
    requires IsReplacement(config, history, items, answer, keep, start, kept)
    requires IsCandidate(config, history, full, answer, config.keepRecentTokens, shown, fullKept)
    ensures start <= |history| && shown <= |history|
              && IsKept(history, Users(history, start), config.userVerbatimTokens, kept)
    ensures Cut(SegmentsOf(history), history, |history|)
    ensures exists a: nat :: IsTailStart(history, SegmentsOf(history), a, start)
    ensures exists a: nat :: IsTailStart(history, SegmentsOf(history), a, shown)
  {
    hide IsKept, Acceptable, SegmentsOf, Users, SummaryItem, Replacement, FewestHalvings, Cut, IsTailStart;
  }

  /** Between two tail starts stands a response, and no user message that is kept. */
  lemma DropsAnAnswer(history: seq<Item>, shown: nat, start: nat, budget: nat, kept: seq<nat>)
    requires shown < start <= |history| && IsKept(history, Users(history, start), budget, kept)
    requires Cut(SegmentsOf(history), history, |history|)
    requires exists a: nat :: IsTailStart(history, SegmentsOf(history), a, start)
    requires exists a: nat :: IsTailStart(history, SegmentsOf(history), a, shown)
    ensures exists i :: shown <= i < start && i !in kept
  {
    hide IsKept, SegmentsOf, Users, Fits, HoldsAssistant;
    var s := SegmentsOf(history);
    KeptInRange(history, start, budget, kept);
    UnitsHoldAssistants(history, |history|);
    assert history[..|history|] == history;
    var t :| 0 <= t < |s.units| && shown == s.units[t].start;
    var w :| 0 <= w < |s.units| && start == s.units[w].start;
    var k := AssistantOf(history, s.units[t]);
    assert k !in kept;
  }

  lemma AssistantOf(history: seq<Item>, unit: Range) returns (k: nat)
    requires HoldsAssistant(history, unit)
    ensures unit.start <= k < unit.end && k < |history| && history[k].Assistant?
  {
    k :| unit.start <= k < unit.end && k < |history| && history[k].Assistant?;
  }

  /** Item `i` has a block in the transcript: it is a summary, or none of the `d` oldest others. */
  ghost predicate IsShown(history: seq<Item>, shown: nat, d: nat, i: nat)
    requires shown <= |history|
  {
    var others := OtherIndices(history[..shown]);
    i < shown && (IsSummaryItem(history[i]) || exists k: nat :: d <= k < |others| && others[k] == i)
  }

  /** Item `i` was shown to the summary, or stands in the history it leads to. */
  ghost predicate Survives(history: seq<Item>, shown: nat, d: nat, kept: seq<nat>, start: nat, i: nat)
    requires shown <= |history|
  {
    IsShown(history, shown, d, i) || i in kept || start <= i
  }

  /** Nothing is lost exactly when the replacement with the full tail was acceptable and each of
      the `d` items the transcript leaves out is kept as it is. */
  lemma {:induction false} NothingLostIff(config: ContextConfig, history: seq<Item>, items: seq<Item>, answer: string,
                                          keep: nat, start: nat, kept: seq<nat>,
                                          full: seq<Item>, shown: nat, fullKept: seq<nat>, d: nat)
    requires IsReplacement(config, history, items, answer, keep, start, kept)
    requires IsCandidate(config, history, full, answer, config.keepRecentTokens, shown, fullKept)
    requires d <= |OtherIndices(history[..shown])|
    ensures (forall i: nat :: i < |history| ==> Survives(history, shown, d, kept, start, i))
            <==> Acceptable(config, history, full, shown)
                 && forall k: nat :: k < d ==> OtherIndices(history[..shown])[k] in kept
  {
    TailStaysIffAcceptable(config, history, items, answer, keep, start, kept, full, shown, fullKept);
    NothingDroppedIffFullTailFits(config, history, items, answer, keep, start, kept, full, shown, fullKept);
    hide Acceptable, IsReplacement, IsCandidate;
    OmittedSurvive(history, shown, d, kept, start);
  }

  /** Before the tail exactly the omitted items that are not kept are lost. */
  lemma OmittedSurvive(history: seq<Item>, shown: nat, d: nat, kept: seq<nat>, start: nat)
    requires shown <= |history| && shown <= start && d <= |OtherIndices(history[..shown])|
    ensures (forall i: nat :: i < shown ==> Survives(history, shown, d, kept, start, i))
            <==> forall k: nat :: k < d ==> OtherIndices(history[..shown])[k] in kept
    ensures forall i: nat :: shown <= i ==> (Survives(history, shown, d, kept, start, i) <==> i in kept || start <= i)
  {
    hide OtherIndices, IsSummaryItem;
    var others := OtherIndices(history[..shown]);
    assert forall i :: 0 <= i < shown ==> history[..shown][i] == history[i];
    if forall i: nat :: i < shown ==> Survives(history, shown, d, kept, start, i) {
      forall k: nat | k < d ensures others[k] in kept {
        assert Survives(history, shown, d, kept, start, others[k]);
      }
    }
    if forall k: nat :: k < d ==> others[k] in kept {
      forall i: nat | i < shown ensures Survives(history, shown, d, kept, start, i) {
        if !IsSummaryItem(history[i]) {
          var k: nat :| k < |others| && others[k] == i;
        }
      }
    }
  }

  /** The request that was answered shows a block for every item before the full tail but the `d`
      oldest that are no summaries, `d` being the fewest that have to go. Nothing is lost exactly
      when these are kept and the full tail stays. */
  lemma {:induction false} WhatASummaryLoses(config: ContextConfig, caps: Caps, history: seq<Item>,
                                             requests: seq<SummaryRequest>,
                                             items: seq<Item>, answer: string, keep: nat, start: nat, kept: seq<nat>,
                                             full: seq<Item>, shown: nat, fullKept: seq<nat>) returns (d: nat)
    requires AreRequests(config, caps, history, requests) && requests != []
    requires IsReplacement(config, history, items, answer, keep, start, kept)
    requires IsCandidate(config, history, full, answer, config.keepRecentTokens, shown, fullKept)
    ensures d <= |OtherIndices(history[..shown])|
    ensures var budget := AnsweredBudget(config, caps, requests);
            var summaries := SummaryBlocks(history[..shown]);
            var others := OtherBlocks(history[..shown], config.toolResultExcerptChars, config.reasoningExcerptChars,
                                      PerItemLimit(budget));
            && Omits(summaries, others, budget, d)
            && requests[|requests| - 1].transcript == WithOmitted(summaries, others, budget, d)
            && |others| == |OtherIndices(history[..shown])|
            && forall k: nat :: k < |others| ==>
                 others[k] == BlockOf(history[OtherIndices(history[..shown])[k]], config.toolResultExcerptChars,
                                      config.reasoningExcerptChars, PerItemLimit(budget))
    ensures (forall i: nat :: i < |history| ==> Survives(history, shown, d, kept, start, i))
            <==> Acceptable(config, history, full, shown)
                 && forall k: nat :: k < d ==> OtherIndices(history[..shown])[k] in kept
  {
    hide IsReplacement, Acceptable, BlockOf, PerItemLimit, OtherIndices, OtherBlocks, SummaryBlocks, AnsweredBudget,
         FitsBudget, Assemble, WithOmitted, Sends, IsCandidate;
    var excerptChars, reasoningChars := config.toolResultExcerptChars, config.reasoningExcerptChars;
    CandidateIsFullTail(config, history, full, answer, shown, fullKept);
    var budget := AnsweredBudget(config, caps, requests);
    var limit := PerItemLimit(budget);
    var before := history[..shown];
    AnsweredShows(config, caps, before, requests);
    BlocksOfIndices(before, excerptChars, reasoningChars, limit);
    d := FewestOmitted(SummaryBlocks(before), OtherBlocks(before, excerptChars, reasoningChars, limit), budget, 0);
    TranscriptIsDetermined(requests[|requests| - 1].transcript, SummaryBlocks(before),
                           OtherBlocks(before, excerptChars, reasoningChars, limit), budget, d);
    NothingLostIff(config, history, items, answer, keep, start, kept, full, shown, fullKept, d);
  }

  lemma CandidateIsFullTail(config: ContextConfig, history: seq<Item>, full: seq<Item>, answer: string, shown: nat,
                            fullKept: seq<nat>)
    requires IsCandidate(config, history, full, answer, config.keepRecentTokens, shown, fullKept)
    ensures shown <= |history| && IsFullTail(config, history, shown)
  {
    hide Cut, IsTailStart, IsKept, SegmentsOf, Users, SummaryItem;
  }

  function Says(text: string): Item {
    Assistant(AssistantItem(Origin("r", "m"), [TextBlock(text)]))
  }

  lemma SaysChars(text: string)
    ensures ItemChars(Says(text)) == |text| && Calls(Says(text).assistant) == []
  {
    var blocks := [TextBlock(text)];
    assert blocks[1..] == [];
    assert BlocksChars(blocks) == |text|;
    assert CallsIn(blocks) == [];
  }

  const TWO_ANSWERS := [User("task"), Says("aaaaaaa"), Says("bbbbbbb")]
  const SMALL_TAIL := ContextConfig(100000, 0, 1, 4, 0, 0, 0, None)

  lemma TwoUnits()
    ensures SegmentsOf(TWO_ANSWERS) == Segmentation(1, [Range(1, 2), Range(2, 3)])
  {
    var h := TWO_ANSWERS;
    assert SegmentsOf(h[..0]) == Segmentation(0, []);
    SegmentsAppend(h, 0);
    SegmentsAppend(h, 1);
    SegmentsAppend(h, 2);
    assert h[..3] == h;
  }

  lemma TailOf(keep: nat)
    requires keep == 4 || keep == 2 || keep == 0
    ensures Cut(SegmentsOf(TWO_ANSWERS), TWO_ANSWERS, 3)
    ensures IsTailStart(TWO_ANSWERS, SegmentsOf(TWO_ANSWERS), keep, if keep == 4 then 1 else 2)
  {
    hide ItemChars;
    var h := TWO_ANSWERS;
    TwoUnits();
    SaysChars("aaaaaaa");
    SaysChars("bbbbbbb");
    assert h[1..3] == [h[1]] + [h[2]] && [h[1]][1..] == [] && [h[2]][1..] == [];
    CharsConcat([h[1]], [h[2]]);
    var s := SegmentsOf(h);
    assert Fits(h, s, keep, 0) <==> keep == 4;
    assert Fits(h, s, keep, 1);
    var t := if keep == 4 then 0 else 1;
    assert s.units[t].start == if keep == 4 then 1 else 2;
  }

  /** A history whose compaction drops an answer: it is neither shown to the summary, whose
      transcript ends before the full tail, nor part of the halved tail that replaces it. */
  lemma {:induction false} HalvingDropsAnAnswer() returns (items: seq<Item>)
    ensures SMALL_TAIL.IsValid() && Cut(SegmentsOf(TWO_ANSWERS), TWO_ANSWERS, |TWO_ANSWERS|)
    ensures IsTailStart(TWO_ANSWERS, SegmentsOf(TWO_ANSWERS), SMALL_TAIL.keepRecentTokens, 1)
    ensures !Acceptable(SMALL_TAIL, TWO_ANSWERS, Replacement(TWO_ANSWERS, [0], 1, SummaryItem("s")), 1)
    ensures IsReplacement(SMALL_TAIL, TWO_ANSWERS, items, "s", SMALL_TAIL.keepRecentTokens / 2, 2, [0])
    ensures TWO_ANSWERS[1] !in items
  {
    hide EstimateTokens, IsTailStart, Cut, SegmentsOf, IsKept, CountFrom, Users, SummaryItem;
    var h := TWO_ANSWERS;
    items := Replacement(h, [0], 2, SummaryItem("s"));
    TailOf(4);
    TailOf(2);
    TwoUnits();
    KeptTask(1);
    KeptTask(2);
    LargeEnough(Replacement(h, [0], 1, SummaryItem("s")));
    UnitsBehind();
    FirstHalving(Replacement(h, [0], 1, SummaryItem("s")));
    assert items == [SummaryItem("s"), h[0], h[2]];
    SummaryItemIsSummary("s");
    assert h[1] != items[0];
  }

  const TIGHT := ContextConfig(10, 0, 1, 0, 0, 0, 0, None)
  const LONG_SUMMARY := Caps(9, None)

  lemma NothingShown(text: string)
    requires ShowsWithin(TIGHT, TWO_ANSWERS[..2], text, FirstBudget(TIGHT, LONG_SUMMARY))
    ensures text == ""
  {
    hide PerItemLimit, JoinWith, Parts, CeilTokens, Omission, SummaryBlocks, OtherBlocks;
    var items := TWO_ANSWERS[..2];
    var others := OtherBlocks(items, 0, 0, PerItemLimit(1));
    assert PerItemLimit(1) >= 4 by { LimitIsLarge(1); }
    TwoBlocks(PerItemLimit(1));
    forall e | 0 <= e <= |others| ensures !FitsBudget(Assemble([], others, e), 1) {
      PieceLength("\n\n", Pieces([], others, e), 0);
      OmissionIsLong(e);
      CeilTokensMonotone(12, |Assemble([], others, e)|);
      FourTokens();
    }
    NothingJoined();
  }

  lemma LimitIsLarge(budget: nat)
    ensures PerItemLimit(budget) >= MAX_BLOCK_CHARS
  {
  }

  lemma FourTokens()
    ensures CeilTokens(12) == 4
  {
  }

  lemma NothingJoined()
    ensures JoinWith("\n\n", []) == ""
  {
  }

  lemma OmissionIsLong(dropped: nat)
    ensures |Omission(dropped)| >= 12
  {
  }

  lemma TwoBlocks(limit: nat)
    requires limit >= 4
    ensures SummaryBlocks(TWO_ANSWERS[..2]) == []
    ensures |OtherBlocks(TWO_ANSWERS[..2], 0, 0, limit)| == 2
              && OtherBlocks(TWO_ANSWERS[..2], 0, 0, limit)[0] == "## User\ntask"
  {
    hide Parts;
    var two, one := TWO_ANSWERS[..2], TWO_ANSWERS[..1];
    TaskIsPlain();
    assert two[..1] == one && one[..0] == [];
    assert SummaryBlocks([]) == [] && OtherBlocks([], 0, 0, limit) == [];
    assert !IsSummaryItem(two[1]) && !IsSummaryItem(one[0]);
    assert FirstChars("task", limit) == "task" && "## User\n" + "task" == "## User\ntask";
    assert BlockOf(one[0], 0, 0, limit) == "## User\ntask";
    assert SummaryBlocks(one) == [] && OtherBlocks(one, 0, 0, limit) == ["## User\ntask"];
  }

  /** A history whose compaction drops an answer although the full tail stays: the transcript has
      no room for it, so what is summarized is an empty text, and it is not kept either. */
  lemma {:induction false} BudgetDropsAnAnswer() returns (items: seq<Item>)
    ensures TIGHT.IsValid() && LONG_SUMMARY.summaryOutputTokens < TIGHT.Wall() && IsFullTail(TIGHT, TWO_ANSWERS, 2)
    ensures IsReplacement(TIGHT, TWO_ANSWERS, items, "s", TIGHT.keepRecentTokens, 2, [0])
              && Acceptable(TIGHT, TWO_ANSWERS, items, 2)
    ensures forall text :: ShowsWithin(TIGHT, TWO_ANSWERS[..2], text, FirstBudget(TIGHT, LONG_SUMMARY)) ==> text == ""
    ensures TWO_ANSWERS[1] !in items
  {
    hide EstimateTokens, IsTailStart, Cut, SegmentsOf, IsKept, CountFrom, Users, SummaryItem, ShowsWithin;
    var h := TWO_ANSWERS;
    items := Replacement(h, [0], 2, SummaryItem("s"));
    TailOf(0);
    TwoUnits();
    KeptTask(2);
    UnitsBehind();
    NoHalving(TIGHT, h, "s");
    assert items == [SummaryItem("s"), h[0], h[2]];
    SummaryItemIsSummary("s");
    assert h[1] != items[0];
    forall text | ShowsWithin(TIGHT, h[..2], text, FirstBudget(TIGHT, LONG_SUMMARY)) ensures text == "" {
      NothingShown(text);
    }
  }

  lemma FirstHalving(full: seq<Item>)
    requires IsCandidate(SMALL_TAIL, TWO_ANSWERS, full, "s", SMALL_TAIL.keepRecentTokens, 1, [0])
    requires !Acceptable(SMALL_TAIL, TWO_ANSWERS, full, 1)
    ensures FewestHalvings(SMALL_TAIL, TWO_ANSWERS, "s", SMALL_TAIL.keepRecentTokens / 2, 1)
  {
    hide IsCandidate, Acceptable;
    assert TooLong(SMALL_TAIL, TWO_ANSWERS, "s", Halved(SMALL_TAIL.keepRecentTokens, 0));
  }

  lemma UnitsBehind()
    ensures CountFrom([Range(1, 2), Range(2, 3)], 1) == 2
    ensures CountFrom([Range(1, 2), Range(2, 3)], 2) == 1
  {
    var units := [Range(1, 2), Range(2, 3)];
    assert units[1..] == [Range(2, 3)] && units[1..][1..] == [];
  }

  lemma TaskIsPlain()
    ensures IsPlainUser(User("task"))
  {
    assert |SUMMARY_MARKER| > 4;
  }

  /** Before the first `n` items, of which only the first is a user's, it is what is kept. */
  lemma {:induction false} OnlyTask(history: seq<Item>, n: nat)
    requires 1 <= n <= |history| && history[0] == User("task") && forall i :: 1 <= i < n ==> history[i].Assistant?
    ensures Users(history, n) == [0]
  {
    TaskIsPlain();
    if n == 1 {
      assert Users(history, 0) == [];
    } else {
      OnlyTask(history, n - 1);
      ResponseIsNotPlain(history[n - 1]);
      hide IsPlainUser;
      assert Users(history, n) == Users(history, n - 1) + [];
    }
  }

  lemma ResponseIsNotPlain(item: Item)
    requires item.Assistant?
    ensures !IsPlainUser(item)
  {
  }

  lemma KeepsOne(items: seq<Item>)
    requires items != []
    ensures IsKept(items, [0], 0, [0])
  {
    assert [0] == [0] + [0][1..];
  }

  lemma KeptTask(start: nat)
    requires start == 1 || start == 2
    ensures IsKept(TWO_ANSWERS, Users(TWO_ANSWERS, start), 0, [0])
  {
    hide IsKept, Users;
    OnlyTask(TWO_ANSWERS, start);
    KeepsOne(TWO_ANSWERS);
  }

  lemma LargeEnough(items: seq<Item>)
    requires items != [] && items[0] == SummaryItem("s")
    ensures EstimateTokens(items) >= 1
  {
    assert ItemChars(items[0]) >= 1;
    CeilTokensMonotone(1, Chars(items));
  }

  // ------------------------------------------------------------------ what the core refuses

  /** A compaction of a history is refused by the core's validation exactly when the history's last
      response is answered in part: some calls are pending, and results follow the response. */
  lemma {:induction false} RefusedIffPartlyAnswered(config: ContextConfig, history: seq<Item>, items: seq<Item>)
    requires Replaces(config, history, items) && Pending(history).Some? && DistinctCalls(history)
    ensures ReplacementOk(items) <==> Pending(history) == Some([]) || history[|history| - 1].Assistant?
  {
    hide Replaces, ReplacementOk, PendingFrom, DistinctCalls;
    ReplacementKeepsPending(config, history, items);
    if Pending(history) == Some([]) {
      WellFormedPasses(items);
    } else {
      ReplacementEndsAlike(config, history, items);
      PendingPassesIffLast(items);
    }
  }

  lemma {:induction false} ReplacementEndsAlike(config: ContextConfig, history: seq<Item>, items: seq<Item>)
    requires Replaces(config, history, items) && Pending(history).Some? && Pending(history) != Some([])
    ensures history != [] && items != [] && items[|items| - 1] == history[|history| - 1]
  {
    hide IsKept, IsTailStart, Cut, Acceptable, PendingFrom, SegmentsOf, Users, FewestHalvings;
    var answer: string, keep: nat, start: nat,
          kept: seq<nat> :| IsReplacement(config, history, items, answer, keep, start, kept);
    KeptInRange(history, start, config.userVerbatimTokens, kept);
    TailIsClean(history, SegmentsOf(history), keep, start);
    assert history[..|history|] == history;
  }

  const FIRST_CALL := ToolCall("1", "t", Text(""))
  const SECOND_CALL := ToolCall("2", "t", Text(""))
  const ASKS_TWICE := AssistantItem(Origin("r", "m"), [CallBlock(FIRST_CALL), CallBlock(SECOND_CALL)])
  const HALF_ANSWERED :=
    [User("task"), Says("aaaaaaa"), Assistant(ASKS_TWICE), ToolResult(ToolResultItem("1", "t", ToolStatus.Okay, ""))]
  const NO_TAIL := ContextConfig(100000, 0, 1, 0, 0, 0, 0, None)

  lemma HalfAnsweredPending()
    ensures KeepsPending(HALF_ANSWERED, [SECOND_CALL])
  {
    var h := HALF_ANSWERED;
    AsksTwice();
    SaysChars("aaaaaaa");
    var task: seq<Item> := [User("task")];
    PendingAppend([], User("task"));
    assert [] + task == task;
    assert h[..1] == task && h[..2][..1] == h[..1] && h[..3][..2] == h[..2] && h[..4] == h && h[..4][..3] == h[..3];
    assert Pending(h[..1]) == Some([]);
    assert Pending(h[..2]) == Some([]);
    assert Pending(h[..3]) == Some([FIRST_CALL, SECOND_CALL]);
    assert [FIRST_CALL, SECOND_CALL][1..] == [SECOND_CALL];
  }

  lemma AsksTwice()
    ensures Calls(ASKS_TWICE) == [FIRST_CALL, SECOND_CALL]
  {
    var blocks := ASKS_TWICE.blocks;
    assert blocks[1..] == [CallBlock(SECOND_CALL)] && blocks[1..][1..] == [];
    assert CallsIn(blocks[1..][1..]) == [];
    assert CallsIn(blocks[1..]) == [SECOND_CALL];
  }

  lemma HalfAnsweredUnits()
    ensures SegmentsOf(HALF_ANSWERED) == Segmentation(1, [Range(1, 2), Range(2, 4)])
  {
    var h := HALF_ANSWERED;
    assert SegmentsOf(h[..0]) == Segmentation(0, []);
    SegmentsAppend(h, 0);
    SegmentsAppend(h, 1);
    SegmentsAppend(h, 2);
    SegmentsAppend(h, 3);
    assert [Range(1, 2), Range(2, 3)][..1] == [Range(1, 2)];
    assert h[..4] == h;
  }

  lemma HalfAnsweredTail()
    ensures Cut(SegmentsOf(HALF_ANSWERED), HALF_ANSWERED, 4)
    ensures IsTailStart(HALF_ANSWERED, SegmentsOf(HALF_ANSWERED), 0, 2)
  {
    hide ItemChars;
    var h := HALF_ANSWERED;
    HalfAnsweredUnits();
    SaysChars("aaaaaaa");
    assert h[1..4] == [h[1]] + h[2..] && [h[1]][1..] == [];
    CharsConcat([h[1]], h[2..]);
    CeilTokensMonotone(7, Chars(h[1..4]));
    var s := SegmentsOf(h);
    assert !Fits(h, s, 0, 0);
    assert Fits(h, s, 0, 1);
    assert s.units[1].start == 2;
  }

  lemma HalfAnsweredKept()
    ensures IsKept(HALF_ANSWERED, Users(HALF_ANSWERED, 2), 0, [0])
  {
    hide IsKept, Users;
    OnlyTask(HALF_ANSWERED, 2);
    KeepsOne(HALF_ANSWERED);
  }

  /** A history that a turn stopped between two results leaves behind, and its replacement, which
      the core refuses to install. */
  lemma {:induction false} HalfAnsweredIsRefused() returns (items: seq<Item>)
    ensures NO_TAIL.IsValid() && KeepsPending(HALF_ANSWERED, [SECOND_CALL])
    ensures Replaces(NO_TAIL, HALF_ANSWERED, items) && !ReplacementOk(items)
  {
    hide IsTailStart, Cut, SegmentsOf, IsKept, Users, SummaryItem, PendingFrom, ReplacementOk, EstimateTokens,
         DistinctCalls;
    items := Replacement(HALF_ANSWERED, [0], 2, SummaryItem("s"));
    HalfAnsweredPending();
    HalfAnsweredTail();
    HalfAnsweredUnits();
    HalfAnsweredKept();
    OneUnitBehind();
    NoHalving(NO_TAIL, HALF_ANSWERED, "s");
    assert IsReplacement(NO_TAIL, HALF_ANSWERED, items, "s", 0, 2, [0]);
    RefusedIffPartlyAnswered(NO_TAIL, HALF_ANSWERED, items);
  }

  lemma OneUnitBehind()
    ensures CountFrom([Range(1, 2), Range(2, 4)], 2) == 1
  {
    var units := [Range(1, 2), Range(2, 4)];
    assert units[1..] == [Range(2, 4)] && units[1..][1..] == [];
  }

  // ------------------------------------------------------------------ any number of compactions

  /** One step of a session's history: an item joins it, or the policy trims or replaces it. */
  ghost predicate Evolves(config: ContextConfig, before: seq<Item>, after: seq<Item>) {
    Joins(before, after) || Trims(config, before, after) || Replaces(config, before, after)
  }

  predicate Joins(before: seq<Item>, after: seq<Item>) {
    after != [] && after[..|after| - 1] == before
  }

  predicate NoSummaryJoins(before: seq<Item>, after: seq<Item>) {
    Joins(before, after) ==> !IsSummaryItem(after[|after| - 1])
  }

  lemma {:induction false} EvolvesKeepsTask(config: ContextConfig, before: seq<Item>, after: seq<Item>)
    requires Evolves(config, before, after)
    ensures FirstPlain(before).Some? ==> FirstPlain(after) == FirstPlain(before)
  {
    hide Trims, Replaces, IsPlainUser;
    if Replaces(config, before, after) {
      ReplacementKeepsTask(config, before, after);
    } else if Trims(config, before, after) {
      TrimKeepsUsers(config, before, after);
    } else {
      assert after == before + [after[|after| - 1]];
      FirstPlainConcat(before, [after[|after| - 1]]);
    }
  }

  lemma {:induction false} EvolvesKeepsSummaryFirst(config: ContextConfig, before: seq<Item>, after: seq<Item>)
    requires Evolves(config, before, after) && SummaryFirst(before)
    requires NoSummaryJoins(before, after)
    ensures SummaryFirst(after)
  {
    hide Trims, Replaces, IsSummaryItem, FirstPlain;
    if Replaces(config, before, after) {
      ReplacementSummarizesOnce(config, before, after);
    } else if Trims(config, before, after) {
      TrimKeepsUsers(config, before, after);
    } else {
      assert after == before + [after[|after| - 1]];
    }
  }

  lemma {:induction false} TrimKeepsUsers(config: ContextConfig, before: seq<Item>, after: seq<Item>)
    requires Trims(config, before, after)
    ensures FirstPlain(after) == FirstPlain(before)
    ensures SummaryFirst(before) ==> SummaryFirst(after)
  {
    hide Cut, IsTailStart, SegmentsOf;
    var start :| 0 <= start <= |before| && after == TrimTo(before, start, config.toolResultExcerptChars);
    TrimChangesContents(before, start, config.toolResultExcerptChars);
    hide Trims;
    ContentsKeepUsers(before, after);
    forall i | 0 < i < |after| && SummaryFirst(before) ensures !IsSummaryItem(after[i]) {
      assert !IsSummaryItem(before[i]);
    }
  }

  lemma {:induction false} ContentsKeepUsers(a: seq<Item>, b: seq<Item>)
    requires SameButContents(a, b)
    ensures FirstPlain(a) == FirstPlain(b)
  {
    if a != [] {
      ContentsKeepUsers(a[1..], b[1..]);
    }
  }

  /** However often a session is trimmed and compacted, and whatever joins its history, the first
      plain user message stays the first plain user message, verbatim. */
  lemma {:induction false} TaskSurvives(config: ContextConfig, states: seq<seq<Item>>, i: nat, j: nat)
    requires i <= j < |states|
    requires forall k :: 0 <= k < |states| - 1 ==> Evolves(config, states[k], states[k + 1])
    ensures FirstPlain(states[i]).Some? ==> FirstPlain(states[j]) == FirstPlain(states[i])
  {
    hide Evolves, FirstPlain;
    if i < j {
      TaskSurvives(config, states, i, j - 1);
      assert Evolves(config, states[j - 1], states[(j - 1) + 1]);
      EvolvesKeepsTask(config, states[j - 1], states[j]);
    }
  }

  /** While nobody begins a text of his own with the summary's marker there is at most one summary,
      in first place. */
  lemma {:induction false} OneSummarySurvives(config: ContextConfig, states: seq<seq<Item>>, j: nat)
    requires j < |states| && SummaryFirst(states[0])
    requires forall k :: 0 <= k < |states| - 1 ==> Evolves(config, states[k], states[k + 1])
    requires forall k :: 0 <= k < |states| - 1 ==> NoSummaryJoins(states[k], states[k + 1])
    ensures SummaryFirst(states[j])
  {
    hide Evolves, SummaryFirst, NoSummaryJoins;
    if j > 0 {
      OneSummarySurvives(config, states, j - 1);
      assert Evolves(config, states[j - 1], states[(j - 1) + 1]) && NoSummaryJoins(states[j - 1], states[(j - 1) + 1]);
      EvolvesKeepsSummaryFirst(config, states[j - 1], states[j]);
    }
  }
}
