/** The summarizing policy's decisions (engine.rs): when to trim, when to summarize, how a
    summary request is capped and retried, and what an answer is turned into. The driver's
    answers are arbitrary. */
module Engine {
  import opened Contracts
  import opened Transcript
  import opened Estimate
  import opened Plan
  import opened Render

  const TRIM_MARKER := "[older result shortened by p1; read the file or rerun the command for the full text]"
  const U32_MAX: nat := 0xffff_ffff

  datatype ContextConfig = ContextConfig(
    windowTokens: nat, outputHeadroomTokens: nat, summarizeAtTokens: nat, keepRecentTokens: nat,
    userVerbatimTokens: nat, toolResultExcerptChars: nat, reasoningExcerptChars: nat, trimAtTokens: Option<nat>)
  {
    /** What a request may fill of the window. */
    function Wall(): nat {
      if windowTokens >= outputHeadroomTokens then windowTokens - outputHeadroomTokens else 0
    }

    /** `validate`. */
    predicate IsValid() {
      windowTokens != 0 && summarizeAtTokens < Wall()
      && (trimAtTokens.Some? ==> 0 < trimAtTokens.value <= summarizeAtTokens)
    }
  }

  datatype Caps = Caps(summaryOutputTokens: nat, agentMaxOutputTokens: Option<nat>)

  function Min(a: nat, b: nat): nat {
    if a <= b then a else b
  }

  function Minus(a: nat, b: nat): nat {
    if a >= b then a - b else 0
  }

  // ------------------------------------------------------------------ the input's size

  /** The last response's usage plus an estimate of what followed it, or an estimate of it all. */
  function NextInput(history: seq<Item>, lastUsage: Option<Usage>): nat {
    if lastUsage.None? || lastUsage.value.inputUncached.None? || lastUsage.value.output.None? then EstimateTokens(history)
    else
      var usage := lastUsage.value;
      var known := usage.inputUncached.value + Or0(usage.cacheRead) + Or0(usage.cacheWrite) + usage.output.value;
      known + EstimateTokens(history[LastAssistant(history) + 1..])
  }

  function Or0(n: Option<nat>): nat {
    if n.Some? then n.value else 0
  }

  // ------------------------------------------------------------------ trimming

  predicate EndsWith(text: string, suffix: string) {
    |suffix| <= |text| && text[|text| - |suffix|..] == suffix
  }

  function Shortened(content: string, limit: nat): string {
    Excerpt(content, limit) + "\n" + TRIM_MARKER
  }

  /** An old result is shortened once, and only where that makes it shorter. */
  predicate ShouldTrim(item: Item, limit: nat) {
    item.ToolResult? && !EndsWith(item.result.content, TRIM_MARKER) && |item.result.content| > limit
    && |Shortened(item.result.content, limit)| < |item.result.content|
  }

  function TrimItem(item: Item, limit: nat): Item {
    if ShouldTrim(item, limit) then ToolResult(item.result.(content := Shortened(item.result.content, limit))) else item
  }

  function TrimTo(history: seq<Item>, tailStart: nat, limit: nat): (trimmed: seq<Item>)
    ensures |trimmed| == |history|
    ensures forall i :: 0 <= i < |history| ==>
              trimmed[i] == if i < tailStart then TrimItem(history[i], limit) else history[i]
  {
    seq(|history|, i requires 0 <= i < |history| => if i < tailStart then TrimItem(history[i], limit) else history[i])
  }

  /** `trim_old_results`, for a known tail. */
  method TrimOldResults(history: seq<Item>, tailStart: nat, limit: nat) returns (trimmed: Option<seq<Item>>)
    requires tailStart <= |history|
    ensures trimmed.None? ==> TrimTo(history, tailStart, limit) == history
    ensures trimmed.Some? ==> trimmed.value == TrimTo(history, tailStart, limit) != history
  {
    hide ShouldTrim, TrimTo, TrimItem;
    trimmed := None;
    var index := 0;
    NothingTrimmed(history, limit);
    while index < tailStart
      invariant 0 <= index <= tailStart
      invariant trimmed.None? <==> TrimTo(history, index, limit) == history
      invariant trimmed.Some? ==> trimmed.value == TrimTo(history, index, limit)
    {
      TrimStep(history, index, limit);
      if ShouldTrim(history[index], limit) {
        var items := if trimmed.Some? then trimmed.value else history;
        trimmed := Some(items[index := TrimItem(history[index], limit)]);
      }
      index := index + 1;
    }
  }

  lemma NothingTrimmed(history: seq<Item>, limit: nat)
    ensures TrimTo(history, 0, limit) == history
  {
    hide TrimItem;
  }

  lemma {:induction false} TrimStep(history: seq<Item>, index: nat, limit: nat)
    requires index < |history|
    ensures TrimTo(history, index + 1, limit) == TrimTo(history, index, limit)[index := TrimItem(history[index], limit)]
    ensures TrimTo(history, index + 1, limit) == history <==>
              TrimTo(history, index, limit) == history && !ShouldTrim(history[index], limit)
    ensures !ShouldTrim(history[index], limit) ==> TrimTo(history, index + 1, limit) == TrimTo(history, index, limit)
  {
    hide ShouldTrim;
    var before, after := TrimTo(history, index, limit), TrimTo(history, index + 1, limit);
    assert after == before[index := TrimItem(history[index], limit)];
    assert before[index] == history[index];
    if ShouldTrim(history[index], limit) {
      TrimDiffers(history[index], limit);
    }
    if after == history {
      assert forall i :: 0 <= i < index ==> before[i] == after[i];
      assert before == history;
    }
  }

  lemma TrimDiffers(item: Item, limit: nat)
    requires ShouldTrim(item, limit)
    ensures TrimItem(item, limit) != item && ItemChars(TrimItem(item, limit)) < ItemChars(item)
  {
  }

  /** Two histories differ at most in what some results say. */
  ghost predicate SameButContents(a: seq<Item>, b: seq<Item>) {
    |a| == |b| && forall i :: 0 <= i < |a| ==>
                                a[i] == b[i]
                                || (a[i].ToolResult? && b[i].ToolResult?
                                  && b[i].result == a[i].result.(content := b[i].result.content))
  }

  lemma TrimChangesContents(history: seq<Item>, tailStart: nat, limit: nat)
    ensures SameButContents(history, TrimTo(history, tailStart, limit))
  {
    hide Shortened;
  }

  /** What results say does not pair them: the pending calls and the units stay. */
  lemma {:induction false} ContentsDoNotPair(a: seq<Item>, b: seq<Item>)
    requires SameButContents(a, b)
    ensures Pending(a) == Pending(b) && SegmentsOf(a) == SegmentsOf(b)
    ensures DistinctCalls(a) ==> DistinctCalls(b)
  {
    if a != [] {
      hide DistinctIds, CallsIn;
      var n := |a| - 1;
      ContentsDoNotPair(a[..n], b[..n]);
    }
  }

  lemma {:induction false} TrimChars(history: seq<Item>, tailStart: nat, limit: nat)
    ensures Chars(TrimTo(history, tailStart, limit)) <= Chars(history)
    ensures TrimTo(history, tailStart, limit) != history ==> Chars(TrimTo(history, tailStart, limit)) < Chars(history)
  {
    hide ShouldTrim, ItemChars;
    if history != [] {
      var trimmed := TrimTo(history, tailStart, limit);
      if ShouldTrim(history[0], limit) { TrimDiffers(history[0], limit); }
      TrimChars(history[1..], if tailStart == 0 then 0 else tailStart - 1, limit);
      assert trimmed[1..] == TrimTo(history[1..], if tailStart == 0 then 0 else tailStart - 1, limit);
      if trimmed[0] == history[0] && trimmed[1..] == history[1..] {
        assert trimmed == [trimmed[0]] + trimmed[1..] && history == [history[0]] + history[1..];
      }
    }
  }

  /** A trimmed slice is never longer than the slice it replaces. */
  lemma {:induction false} TrimSlice(history: seq<Item>, tailStart: nat, limit: nat, i: nat, j: nat)
    requires i <= j <= |history|
    ensures Chars(TrimTo(history, tailStart, limit)[i..j]) <= Chars(history[i..j])
  {
    hide ShouldTrim;
    TrimChars(history[i..j], Minus(tailStart, i), limit);
    assert TrimTo(history, tailStart, limit)[i..j] == TrimTo(history[i..j], Minus(tailStart, i), limit);
  }

  /** The tail recomputed on the trimmed history starts no later. */
  lemma {:induction false} TrimmedTailStartsEarlier(history: seq<Item>, s: Segmentation, keep: nat, limit: nat,
                                                    start: nat, again: nat)
    requires s == SegmentsOf(history) && Cut(s, history, |history|) && IsTailStart(history, s, keep, start)
    requires var trimmed := TrimTo(history, start, limit);
             Cut(s, trimmed, |trimmed|) && IsTailStart(trimmed, s, keep, again)
    ensures again <= start
  {
    if s.units != [] {
      hide ShouldTrim, EstimateTokens, SegmentsOf, Fits, TrimTo, Cut, IsTailStart;
      var t := TailUnit(history, s, keep, start);
      var w := TailUnit(TrimTo(history, start, limit), s, keep, again);
      TrimmedFits(history, s, keep, limit, start, t);
      if w < t { UnitsInOrder(history, s, w, t); }
    }
  }

  /** The unit a tail starts with. */
  lemma TailUnit(items: seq<Item>, s: Segmentation, keep: nat, start: nat) returns (t: nat)
    requires Cut(s, items, |items|) && s.units != [] && IsTailStart(items, s, keep, start)
    ensures t < |s.units| && start == s.units[t].start
    ensures forall u: nat :: u < |s.units| ==> (u >= t <==> Fits(items, s, keep, u))
  {
    hide Fits, Cut;
    t :| 0 <= t < |s.units| && start == s.units[t].start
         && forall u :: 0 <= u < |s.units| ==> (u >= t <==> Fits(items, s, keep, u));
  }

  lemma UnitsInOrder(items: seq<Item>, s: Segmentation, w: nat, t: nat)
    requires Cut(s, items, |items|) && w < t < |s.units|
    ensures s.units[w].start <= s.units[t].start
  {
    assert s.units[w].end <= s.units[t].start;
  }

  lemma {:induction false} TrimmedFits(history: seq<Item>, s: Segmentation, keep: nat, limit: nat, start: nat, u: nat)
    requires Cut(s, history, |history|) && u < |s.units| && Fits(history, s, keep, u)
    requires Cut(s, TrimTo(history, start, limit), |history|)
    ensures Fits(TrimTo(history, start, limit), s, keep, u)
  {
    hide ShouldTrim, TrimItem;
    if u < |s.units| - 1 {
      var i, j := s.units[u].start, s.units[|s.units| - 1].end;
      TrimSlice(history, start, limit, i, j);
      CeilTokensMonotone(Chars(TrimTo(history, start, limit)[i..j]), Chars(history[i..j]));
    }
  }

  lemma ShortenedIsMarked(item: Item, limit: nat)
    requires ShouldTrim(item, limit)
    ensures EndsWith(TrimItem(item, limit).result.content, TRIM_MARKER)
  {
    hide Excerpt;
    var head := Excerpt(item.result.content, limit) + "\n";
    assert (head + TRIM_MARKER)[|head|..] == TRIM_MARKER;
  }

  /** Trimming twice trims once, even though the tail is found anew on the trimmed history. */
  lemma {:induction false} TrimIsIdempotent(history: seq<Item>, keep: nat, limit: nat, start: nat, again: nat)
    requires Cut(SegmentsOf(history), history, |history|) && IsTailStart(history, SegmentsOf(history), keep, start)
    requires var trimmed := TrimTo(history, start, limit);
             Cut(SegmentsOf(trimmed), trimmed, |trimmed|) && IsTailStart(trimmed, SegmentsOf(trimmed), keep, again)
    ensures TrimTo(TrimTo(history, start, limit), again, limit) == TrimTo(history, start, limit)
  {
    hide IsTailStart, Cut, SegmentsOf, Excerpt;
    var trimmed := TrimTo(history, start, limit);
    TrimChangesContents(history, start, limit);
    ContentsDoNotPair(history, trimmed);
    TrimmedTailStartsEarlier(history, SegmentsOf(history), keep, limit, start, again);
    forall i | 0 <= i < |trimmed| && i < again ensures TrimItem(trimmed[i], limit) == trimmed[i] {
      if ShouldTrim(history[i], limit) { ShortenedIsMarked(history[i], limit); }
    }
  }

  // ------------------------------------------------------------------ one summarization

  datatype SummaryRequest = SummaryRequest(transcript: string, maxOutputTokens: Option<nat>)

  /** A cap below the wall leaves room for the transcript it caps the summary of. */
  predicate LeavesRoom(config: ContextConfig, request: SummaryRequest) {
    request.maxOutputTokens.Some? && request.maxOutputTokens.value < config.Wall() ==>
      CeilTokens(|request.transcript|) + request.maxOutputTokens.value <= config.Wall()
  }

  /** The full tail: what precedes its start is what a summary is asked for. */
  ghost predicate IsFullTail(config: ContextConfig, history: seq<Item>, start: nat) {
    && start <= |history| && Cut(SegmentsOf(history), history, |history|)
    && IsTailStart(history, SegmentsOf(history), config.keepRecentTokens, start)
  }

  /** The text is what the items are shown as within the budget, and keeps to it. */
  ghost predicate ShowsWithin(config: ContextConfig, items: seq<Item>, text: string, budget: nat) {
    Renders(text, items, config.toolResultExcerptChars, config.reasoningExcerptChars, budget)
      && FitsBudget(text, budget)
  }

  /** What the transcript of the first request may take. */
  function FirstBudget(config: ContextConfig, caps: Caps): nat {
    Minus(config.Wall(), caps.summaryOutputTokens)
  }

  function FirstCap(caps: Caps): nat {
    var limit := Min(caps.summaryOutputTokens, U32_MAX);
    Min(if caps.agentMaxOutputTokens.Some? then caps.agentMaxOutputTokens.value else limit, limit)
  }

  /** Twice the cap, within the wall. */
  function DoubledCap(config: ContextConfig, cap: nat): nat {
    Min(Min(2 * cap, U32_MAX), Min(config.Wall(), U32_MAX))
  }

  /** The first request shows what precedes the tail, as far as its budget goes. */
  ghost predicate IsFirst(config: ContextConfig, caps: Caps, items: seq<Item>, request: SummaryRequest) {
    request.maxOutputTokens == Some(FirstCap(caps))
      && ShowsWithin(config, items, request.transcript, FirstBudget(config, caps))
  }

  /** The second one is the first without its cap, or with twice the cap: then the transcript is
      made anew for the room that is left, unless the cap leaves none. */
  ghost predicate IsSecond(config: ContextConfig, items: seq<Item>, first: SummaryRequest, second: SummaryRequest)
    requires first.maxOutputTokens.Some?
  {
    || second == first.(maxOutputTokens := None)
    || IsDoubled(config, items, first, second)
  }

  ghost predicate IsDoubled(config: ContextConfig, items: seq<Item>, first: SummaryRequest, second: SummaryRequest)
    requires first.maxOutputTokens.Some?
  {
    var doubled := DoubledCap(config, first.maxOutputTokens.value);
    && second.maxOutputTokens == Some(doubled)
    && if doubled < config.Wall() then ShowsWithin(config, items, second.transcript, config.Wall() - doubled)
       else second.transcript == first.transcript
  }

  /** What is sent while the items `items` are summarized: nothing, one request or two. */
  ghost predicate Sends(config: ContextConfig, caps: Caps, items: seq<Item>, requests: seq<SummaryRequest>) {
    && |requests| <= 2
    && (|requests| >= 1 ==> IsFirst(config, caps, items, requests[0]))
    && (|requests| == 2 ==> IsSecond(config, items, requests[0], requests[1]))
  }

  /** Every request shows everything outside the verbatim tail within its own budget, and leaves
      room for what it asks for. */
  ghost predicate AreRequests(config: ContextConfig, caps: Caps, history: seq<Item>, requests: seq<SummaryRequest>) {
    && (forall r :: r in requests ==> LeavesRoom(config, r))
    && forall start: nat :: IsFullTail(config, history, start) ==> Sends(config, caps, history[..start], requests)
  }

  /** With the cap doubled the previous summaries, which must be shown, still have room. A doubled cap
      as large as the wall needs none: the transcript is sent as it was. */
  ghost predicate CanDouble(config: ContextConfig, caps: Caps, items: seq<Item>) {
    var doubled := DoubledCap(config, FirstCap(caps));
    doubled < config.Wall() ==> FitsBudget(JoinWith("\n\n", SummaryBlocks(items)), config.Wall() - doubled)
  }

  /** The budget of the transcript that was answered: that of the last request. */
  function AnsweredBudget(config: ContextConfig, caps: Caps, requests: seq<SummaryRequest>): nat {
    var cap := if |requests| == 2 then requests[1].maxOutputTokens else None;
    if cap.Some? && cap.value < config.Wall() then config.Wall() - cap.value else FirstBudget(config, caps)
  }

  lemma AnsweredShows(config: ContextConfig, caps: Caps, items: seq<Item>, requests: seq<SummaryRequest>)
    requires Sends(config, caps, items, requests) && requests != []
    ensures ShowsWithin(config, items, requests[|requests| - 1].transcript, AnsweredBudget(config, caps, requests))
  {
    hide ShowsWithin, FirstCap, FirstBudget;
  }

  /** How a summarization can end. */
  datatype Summarized =
    | Built(items: seq<Item>, usage: Option<Usage>)
    | NothingToSummarize
    | Failed

  /** The usage of two requests, summed where both reported a part. */
  function SumUsage(first: Option<Usage>, second: Option<Usage>): Option<Usage> {
    if first.None? || second.None? then None
    else
      var a, b := first.value, second.value;
      Some(Usage(SumPart(a.inputUncached, b.inputUncached), SumPart(a.cacheRead, b.cacheRead),
                 SumPart(a.cacheWrite, b.cacheWrite), SumPart(a.output, b.output),
                 SumPart(a.reasoningOutput, b.reasoningOutput), SumPart(a.costMicroUsd, b.costMicroUsd)))
  }

  function SumPart(a: Option<nat>, b: Option<nat>): Option<nat> {
    if a.Some? && b.Some? then Some(a.value + b.value) else None
  }

  function SummaryItem(answer: string): Item {
    User(SUMMARY_MARKER + "\n" + answer)
  }

  /** `items` is the summary, the kept user messages and the verbatim tail for the largest budget
      with which it is acceptable: the full one, or the full one halved up to three times. */
  ghost predicate IsReplacement(config: ContextConfig, history: seq<Item>, items: seq<Item>, answer: string,
                                keep: nat, start: nat, kept: seq<nat>) {
    IsCandidate(config, history, items, answer, keep, start, kept)
    && answer != [] && Acceptable(config, history, items, start)
    && exists halvings: nat :: FewestHalvings(config, history, answer, keep, halvings)
  }

  /** Every larger budget leads to a replacement that is not acceptable. */
  ghost predicate FewestHalvings(config: ContextConfig, history: seq<Item>, answer: string, keep: nat, halvings: nat) {
    halvings <= 3 && keep == Halved(config.keepRecentTokens, halvings)
    && forall n :: 0 <= n < halvings ==> TooLong(config, history, answer, Halved(config.keepRecentTokens, n))
  }

  ghost predicate TooLong(config: ContextConfig, history: seq<Item>, answer: string, keep: nat) {
    exists items, start: nat, kept: seq<nat> ::
      IsCandidate(config, history, items, answer, keep, start, kept) && !Acceptable(config, history, items, start)
  }

  /** A budget determines the replacement built with it. */
  lemma {:induction false} CandidateUnique(config: ContextConfig, history: seq<Item>, answer: string, keep: nat,
                                           a: seq<Item>, start: nat, kept: seq<nat>, b: seq<Item>, start': nat,
                                             kept': seq<nat>)
    requires IsCandidate(config, history, a, answer, keep, start, kept)
    requires IsCandidate(config, history, b, answer, keep, start', kept')
    ensures start == start' && kept == kept' && a == b
  {
    hide Cut, IsTailStart, IsKept, SegmentsOf, Users, SummaryItem;
    TailStartUnique(history, SegmentsOf(history), keep, start, start');
    KeptUnique(history, Users(history, start), config.userVerbatimTokens, kept, kept');
  }

  ghost predicate IsCandidate(config: ContextConfig, history: seq<Item>, items: seq<Item>, answer: string, keep: nat,
                              start: nat, kept: seq<nat>) {
    var s := SegmentsOf(history);
    && start <= |history| && InRange(kept, history)
    && Cut(s, history, |history|) && IsTailStart(history, s, keep, start)
    && IsKept(history, Users(history, start), config.userVerbatimTokens, kept)
    && items == Replacement(history, kept, start, SummaryItem(answer))
  }

  predicate Acceptable(config: ContextConfig, history: seq<Item>, items: seq<Item>, start: nat) {
    EstimateTokens(items) < config.summarizeAtTokens || TailUnits(SegmentsOf(history), start) <= 1
  }

  ghost predicate Replaces(config: ContextConfig, history: seq<Item>, items: seq<Item>) {
    exists answer, keep, start, kept :: IsReplacement(config, history, items, answer, keep, start, kept)
  }

  /** `items` replaces the history by this summary. */
  ghost predicate ReplacesBy(config: ContextConfig, history: seq<Item>, answer: string, items: seq<Item>) {
    exists keep, start, kept :: IsReplacement(config, history, items, answer, keep, start, kept)
  }

  lemma ReplacedBy(config: ContextConfig, history: seq<Item>, answer: string, items: seq<Item>)
    requires ReplacesBy(config, history, answer, items)
    ensures Replaces(config, history, items)
  {
    hide IsReplacement;
  }

  /** No budget for the tail leads to an acceptable replacement. */
  ghost predicate NoneAcceptable(config: ContextConfig, history: seq<Item>, answer: string) {
    forall n :: 0 <= n <= 3 ==> TooLong(config, history, answer, Halved(config.keepRecentTokens, n))
  }

  /** The material of a summary: what lies outside the kept units and is no summary yet. */
  predicate HasMaterial(history: seq<Item>, s: Segmentation, tailStart: nat) {
    exists i :: 0 <= i < |history| && !InTailUnit(i, tailStart, s) && !IsSummaryItem(history[i])
  }

  class Summarization {
    const config: ContextConfig
    const caps: Caps
    const history: seq<Item>
    const segments: Segmentation
    const tailStart: nat

    var request: SummaryRequest
    /** The current request limits its output. */
    var capped: bool
    /** Completed responses so far. */
    var attempts: nat
    var usage: Option<Usage>
    /** The requests made so far, this one included. */
    ghost var sent: seq<SummaryRequest>

    /** At most two requests, each as the history, the tail and the caps determine. */
    ghost predicate Valid()
      reads this
    {
      && segments == SegmentsOf(history) && IsFullTail(config, history, tailStart)
      && 1 <= |sent| <= 2 && sent[|sent| - 1] == request && Sends(config, caps, history[..tailStart], sent)
      && (|sent| == 1 ==> attempts == 0 && capped)
      && (|sent| == 2 ==> (attempts == 0 && !capped) || (attempts == 1 && capped))
      && (capped <==> request.maxOutputTokens.Some?)
      && LeavesRoom(config, request)
    }

    constructor (config: ContextConfig, caps: Caps, history: seq<Item>, segments: Segmentation, tailStart: nat,
                 request: SummaryRequest)
      requires segments == SegmentsOf(history) && IsFullTail(config, history, tailStart)
      requires IsFirst(config, caps, history[..tailStart], request) && LeavesRoom(config, request)
      ensures Valid() && sent == [request] && attempts == 0 && this.request == request
      ensures this.config == config && this.caps == caps && this.history == history && this.tailStart == tailStart
    {
      this.config, this.caps, this.history, this.segments, this.tailStart := config, caps, history, segments, tailStart;
      this.request, capped, attempts, usage, sent := request, true, 0, None, [request];
    }

    /** The route would not take the request. Only the first one gets a second chance, and without
        its cap: then `true`, and another request is to be sent. */
    method Refused() returns (again: bool)
      requires Valid()
      modifies this
      ensures Valid() && attempts == old(attempts)
      ensures again <==> |old(sent)| == 1
      ensures if again then sent == old(sent) + [request] && !capped && request == old(request).(maxOutputTokens := None)
              else sent == old(sent) && request == old(request)
    {
      hide IsFullTail, ShowsWithin, LeavesRoom, FirstCap, IsDoubled;
      if attempts == 0 && capped && request.maxOutputTokens.Some? {
        UncappedHasRoom(config, request);
        request := request.(maxOutputTokens := None);
        capped := false;
        sent := sent + [request];
        return true;
      }
      return false;
    }

    /** The request completed. Only a summary that stopped by itself is accepted, and it is unless
        it is empty or no budget for the tail leads to an acceptable replacement. One that was cut
        short the first time is asked for again with twice the cap, unless the previous summaries
        leave no room for that; `None` says that another request is to be sent. */
    method Completed(text: string, stop: StopReason, reported: Option<Usage>) returns (outcome: Option<Summarized>)
      requires Valid()
      modifies this
      ensures outcome.None? <==>
                stop.MaxOutputTokens? && |old(sent)| == 1 && CanDouble(config, caps, history[..tailStart])
      ensures outcome.None? ==> Valid() && sent == old(sent) + [request] && attempts == 1 && usage == reported
      ensures outcome.None? ==> request.maxOutputTokens == Some(DoubledCap(config, FirstCap(caps)))
      ensures outcome.Some? ==> sent == old(sent) && !outcome.value.NothingToSummarize?
      ensures outcome.Some? && outcome.value.Built? <==>
                stop.EndTurn? && text != [] && !NoneAcceptable(config, history, text)
      ensures outcome.Some? && outcome.value.Built? ==>
                ReplacesBy(config, history, text, outcome.value.items)
                && outcome.value.usage == if old(attempts) == 0 then reported else SumUsage(old(usage), reported)
    {
      hide IsFullTail, CeilTokens, ReplacesBy, SumUsage, Renders, FitsBudget, NoneAcceptable, FirstCap, FirstBudget,
           LeavesRoom, SegmentsOf, Cut, IsTailStart, JoinWith, SummaryBlocks, DoubledCap, ShowsWithin;
      TailIsCut(config, history, tailStart);
      attempts := attempts + 1;
      usage := if attempts == 1 then reported else SumUsage(usage, reported);
      if stop.EndTurn? {
        var accepted := Accept(text);
        return Some(accepted);
      }
      if !stop.MaxOutputTokens? || attempts != 1 || !capped {
        return Some(Failed);
      }
      var doubled := DoubledCap(config, request.maxOutputTokens.value);
      if doubled < config.Wall() {
        var rendered := CheckedTranscript(history[..tailStart], config.toolResultExcerptChars,
                                          config.reasoningExcerptChars,
                                          config.Wall() - doubled);
        if rendered.Err? {
          return Some(Failed);
        }
        ShownWithin(config, history[..tailStart], rendered.value, config.Wall() - doubled);
        request := request.(transcript := rendered.value);
      }
      request := request.(maxOutputTokens := Some(doubled));
      RoomForDoubled(config, history[..tailStart], request, doubled);
      sent := sent + [request];
      return None;
    }

    /** The summary is turned into a replacement, its tail halved at most three times and only
        while the replacement reaches the threshold and the tail is more than one unit. */
    method Accept(answer: string) returns (r: Summarized)
      requires segments == SegmentsOf(history) && Cut(segments, history, |history|)
      ensures r.Built? || r.Failed?
      ensures r.Built? ==> ReplacesBy(config, history, answer, r.items) && r.usage == usage
      ensures r.Failed? <==> answer == [] || NoneAcceptable(config, history, answer)
    {
      if answer == [] {
        return Failed;
      }
      hide IsCandidate, Acceptable, FewestHalvings, Halved, TooLong, NoneAcceptable;
      var keep := config.keepRecentTokens;
      NoHalving(config, history, answer);
      var start, items, kept := Candidate(answer, keep);
      var halvings := 0;
      while !Acceptable(config, history, items, start) && halvings < 3
        invariant 0 <= halvings <= 3
        invariant IsCandidate(config, history, items, answer, keep, start, kept)
        invariant FewestHalvings(config, history, answer, keep, halvings)
      {
        OneMoreHalving(config, history, answer, items, keep, start, kept, halvings);
        keep := keep / 2;
        start, items, kept := Candidate(answer, keep);
        halvings := halvings + 1;
      }
      if !Acceptable(config, history, items, start) {
        AllTooLong(config, history, answer, items, keep, start, kept);
        return Failed;
      }
      SomeAcceptable(config, history, answer, items, keep, start, kept, halvings);
      assert FewestHalvings(config, history, answer, keep, halvings);
      assert IsReplacement(config, history, items, answer, keep, start, kept);
      return Built(items, usage);
    }

    method Candidate(answer: string, keep: nat) returns (start: nat, items: seq<Item>, ghost kept: seq<nat>)
      requires segments == SegmentsOf(history) && Cut(segments, history, |history|)
      ensures IsCandidate(config, history, items, answer, keep, start, kept)
    {
      hide IsKept, EstimateTokens, SegmentsOf;
      start := TailStart(history, segments, keep);
      TailInRange(history, segments, keep, start);
      items := BuildReplacement(history, start, config.userVerbatimTokens, SummaryItem(answer));
      kept :| IsKept(history, Users(history, start), config.userVerbatimTokens, kept) && InRange(kept, history)
              && items == Replacement(history, kept, start, SummaryItem(answer));
    }
  }

  lemma NoHalving(config: ContextConfig, history: seq<Item>, answer: string)
    ensures FewestHalvings(config, history, answer, config.keepRecentTokens, 0)
  {
  }

  lemma OneMoreHalving(config: ContextConfig, history: seq<Item>, answer: string, items: seq<Item>,
                       keep: nat, start: nat, kept: seq<nat>, halvings: nat)
    requires FewestHalvings(config, history, answer, keep, halvings) && halvings < 3
    requires IsCandidate(config, history, items, answer, keep, start, kept)
              && !Acceptable(config, history, items, start)
    ensures FewestHalvings(config, history, answer, keep / 2, halvings + 1)
  {
    hide IsCandidate, Acceptable;
    assert TooLong(config, history, answer, keep);
  }

  lemma AllTooLong(config: ContextConfig, history: seq<Item>, answer: string, items: seq<Item>,
                   keep: nat, start: nat, kept: seq<nat>)
    requires FewestHalvings(config, history, answer, keep, 3)
    requires IsCandidate(config, history, items, answer, keep, start, kept)
              && !Acceptable(config, history, items, start)
    ensures NoneAcceptable(config, history, answer)
  {
    hide IsCandidate, Acceptable;
    assert TooLong(config, history, answer, keep);
  }

  lemma SomeAcceptable(config: ContextConfig, history: seq<Item>, answer: string, items: seq<Item>,
                       keep: nat, start: nat, kept: seq<nat>, halvings: nat)
    requires FewestHalvings(config, history, answer, keep, halvings)
    requires IsCandidate(config, history, items, answer, keep, start, kept) && Acceptable(config, history, items, start)
    ensures !NoneAcceptable(config, history, answer)
  {
    hide IsCandidate, Acceptable;
    if TooLong(config, history, answer, keep) {
      var i, a: nat, k: seq<nat> :| IsCandidate(config, history, i, answer, keep, a, k)
            && !Acceptable(config, history, i, a);
      CandidateUnique(config, history, answer, keep, items, start, kept, i, a, k);
    }
    assert keep == Halved(config.keepRecentTokens, halvings);
  }

  lemma UncappedHasRoom(config: ContextConfig, request: SummaryRequest)
    ensures LeavesRoom(config, request.(maxOutputTokens := None))
  {
  }

  lemma TailIsCut(config: ContextConfig, history: seq<Item>, start: nat)
    requires IsFullTail(config, history, start)
    ensures start <= |history| && Cut(SegmentsOf(history), history, |history|)
    ensures IsTailStart(history, SegmentsOf(history), config.keepRecentTokens, start)
  {
    hide Cut, IsTailStart;
  }

  lemma FullTailUnique(config: ContextConfig, history: seq<Item>, a: nat, b: nat)
    requires IsFullTail(config, history, a) && IsFullTail(config, history, b)
    ensures a == b
  {
    hide Cut, IsTailStart, SegmentsOf;
    TailStartUnique(history, SegmentsOf(history), config.keepRecentTokens, a, b);
  }

  function Halved(keep: nat, n: nat): nat {
    if n == 0 then keep else Halved(keep, n - 1) / 2
  }

  lemma {:induction false} HalvingShrinks(keep: nat, n: nat)
    ensures Halved(keep, n) <= keep
  {
    if n > 0 { HalvingShrinks(keep, n - 1); }
  }

  lemma TailInRange(history: seq<Item>, s: Segmentation, keep: nat, start: nat)
    requires Cut(s, history, |history|) && IsTailStart(history, s, keep, start)
    ensures s.preludeEnd <= start <= |history|
  {
    hide Fits;
  }

  // ------------------------------------------------------------------ the two goals

  datatype Answer =
    | Refusal
    | Failure
    | Cancellation
    | Completion(text: string, stop: StopReason, usage: Option<Usage>)

  /** The output limit ended the summary. */
  predicate IsCutShort(answer: Answer) {
    answer.Completion? && answer.stop.MaxOutputTokens?
  }

  datatype Driven = Finished(summarized: Summarized) | DriverCancelled

  /** The previous summaries alone exceed what the first transcript may take. */
  ghost predicate SummariesExceed(config: ContextConfig, caps: Caps, items: seq<Item>) {
    !FitsBudget(JoinWith("\n\n", SummaryBlocks(items)), FirstBudget(config, caps))
  }

  /** How a summarization ends that sends nothing. */
  ghost predicate EndsUnsent(config: ContextConfig, caps: Caps, history: seq<Item>, start: nat, summarized: Summarized)
    requires start <= |history|
  {
    if !HasMaterial(history, SegmentsOf(history), start) then summarized.NothingToSummarize?
    else summarized.Failed? && SummariesExceed(config, caps, history[..start])
  }

  /** Something is sent exactly when there is something to summarize and room to show it. */
  ghost predicate IsSent(config: ContextConfig, caps: Caps, history: seq<Item>, start: nat)
    requires start <= |history|
  {
    HasMaterial(history, SegmentsOf(history), start) && !SummariesExceed(config, caps, history[..start])
  }

  /** The driver's answers, one to each request, and what they lead to: the first request is
      followed by another when the route refused it, or its answer was cut short and there is
      room for twice the cap; a summary that
      stopped by itself replaces the history unless it is empty or cannot be made to fit. */
  ghost predicate FollowsAnswers(config: ContextConfig, caps: Caps, history: seq<Item>, answers: seq<Answer>,
                                 driven: Driven)
    requires answers != []
  {
    var last := answers[|answers| - 1];
    && (|answers| == 1 ==> !last.Refusal?)
    && (|answers| == 1 && IsCutShort(last) ==>
          forall start: nat :: IsFullTail(config, history, start) ==> !CanDouble(config, caps, history[..start]))
    && (|answers| == 2 ==> answers[0].Refusal? || IsCutShort(answers[0]))
    && (driven.DriverCancelled? <==> last.Cancellation?)
    && (driven.Finished? ==> !driven.summarized.NothingToSummarize?)
    && (driven.Finished? && driven.summarized.Built? <==>
        last.Completion? && last.stop.EndTurn? && last.text != [] && !NoneAcceptable(config, history, last.text))
    && (driven.Finished? && driven.summarized.Built? ==>
          ReplacesBy(config, history, last.text, driven.summarized.items)
          && driven.summarized.usage ==
             if |answers| == 2 && answers[0].Completion? then SumUsage(answers[0].usage, last.usage) else last.usage)
  }

  /** One summarization, start to end, whatever its driver answers to the requests it is sent. */
  method Summarize(config: ContextConfig, caps: Caps, history: seq<Item>)
    returns (driven: Driven, requests: seq<SummaryRequest>, answers: seq<Answer>)
    ensures AreRequests(config, caps, history, requests) && |answers| == |requests| <= 2
    ensures forall start: nat :: IsFullTail(config, history, start) ==>
              && (requests != [] <==> IsSent(config, caps, history, start))
              && (requests == [] ==> driven.Finished? && EndsUnsent(config, caps, history, start, driven.summarized))
    ensures requests == [] ==> driven.Finished? && !driven.summarized.Built?
    ensures requests != [] ==> FollowsAnswers(config, caps, history, answers, driven)
  {
    hide Cut, CeilTokens, IsTailStart, FitsBudget, HasMaterial, Renders, FirstBudget, FirstCap, AreRequests,
         FollowsAnswers;
    var segments, tailStart := FullTail(config, history);
    TailIsCut(config, history, tailStart);
    hide IsFullTail, SegmentsOf;
    forall start: nat | IsFullTail(config, history, start) ensures start == tailStart {
      FullTailUnique(config, history, start, tailStart);
    }
    NoRequests(config, caps, history);
    if !HasMaterial(history, segments, tailStart) {
      return Finished(NothingToSummarize), [], [];
    }
    var rendered := CheckedTranscript(history[..tailStart], config.toolResultExcerptChars, config.reasoningExcerptChars,
                                      FirstBudget(config, caps));
    if rendered.Err? {
      return Finished(Failed), [], [];
    }
    RoomForFirst(rendered.value, config, caps);
    var request := SummaryRequest(rendered.value, Some(FirstCap(caps)));
    driven, requests, answers := Drive(config, caps, history, segments, tailStart, request);
    OnlyTail(config, caps, history, tailStart, requests);
  }

  /** There is one full tail to judge the requests by. */
  lemma OnlyTail(config: ContextConfig, caps: Caps, history: seq<Item>, tailStart: nat, requests: seq<SummaryRequest>)
    requires IsFullTail(config, history, tailStart) && Sends(config, caps, history[..tailStart], requests)
    requires forall r :: r in requests ==> LeavesRoom(config, r)
    ensures AreRequests(config, caps, history, requests)
  {
    hide Cut, IsTailStart, SegmentsOf, Sends, LeavesRoom;
    forall start: nat | IsFullTail(config, history, start) ensures start == tailStart {
      FullTailUnique(config, history, start, tailStart);
    }
  }

  lemma NoRequests(config: ContextConfig, caps: Caps, history: seq<Item>)
    ensures AreRequests(config, caps, history, [])
  {
    hide IsFullTail;
  }

  method FullTail(config: ContextConfig, history: seq<Item>) returns (segments: Segmentation, start: nat)
    ensures segments == SegmentsOf(history) && IsFullTail(config, history, start)
  {
    hide IsTailStart;
    segments := Segments(history);
    SegmentsCut(history, |history|);
    assert history[..|history|] == history;
    hide SegmentsOf, Cut;
    start := TailStart(history, segments, config.keepRecentTokens);
    TailInRange(history, segments, config.keepRecentTokens, start);
  }

  /** The first request is sent, and another one when the answer calls for it. */
  method Drive(config: ContextConfig, caps: Caps, history: seq<Item>, segments: Segmentation, tailStart: nat,
               request: SummaryRequest)
    returns (driven: Driven, requests: seq<SummaryRequest>, answers: seq<Answer>)
    requires segments == SegmentsOf(history) && IsFullTail(config, history, tailStart)
    requires IsFirst(config, caps, history[..tailStart], request) && LeavesRoom(config, request)
    ensures 1 <= |requests| == |answers| <= 2 && Sends(config, caps, history[..tailStart], requests)
    ensures forall r :: r in requests ==> LeavesRoom(config, r)
    ensures FollowsAnswers(config, caps, history, answers, driven)
  {
    hide SegmentsOf, IsFullTail, CanDouble, Sends, LeavesRoom, NoneAcceptable, ReplacesBy, SumUsage, IsFirst,
         FitsBudget, DoubledCap, FirstCap;
    forall start: nat | IsFullTail(config, history, start) ensures start == tailStart {
      FullTailUnique(config, history, start, tailStart);
    }
    var s := new Summarization(config, caps, history, segments, tailStart, request);
    requests, answers := [], [];
    while true
      invariant s.Valid() && fresh(s) && s.config == config && s.history == history && s.caps == caps
                && s.tailStart == tailStart
      invariant |requests| == |answers| <= 1 && s.sent == requests + [s.request]
      invariant forall r :: r in requests ==> LeavesRoom(config, r)
      invariant requests == [] ==> s.attempts == 0
      invariant requests != [] && s.attempts == 0 ==> answers[0].Refusal?
      invariant requests != [] && s.attempts == 1 ==> IsCutShort(answers[0]) && s.usage == answers[0].usage
      decreases 2 - |requests|
    {
      // The request is sent; the driver answers anything.
      requests := requests + [s.request];
      var answer: Answer := *;
      answers := answers + [answer];
      match answer {
        case Refusal =>
          var again := s.Refused();
          if !again {
            return Finished(Failed), requests, answers;
          }
        case Failure => return Finished(Failed), requests, answers;
        case Cancellation => return DriverCancelled, requests, answers;
        case Completion(text, stop, usage) =>
          var outcome := s.Completed(text, stop, usage);
          if outcome.Some? {
            return Finished(outcome.value), requests, answers;
          }
      }
    }
  }

  /** The first request's cap never exceeds the room its transcript was measured to leave. */
  lemma RoomForFirst(transcript: string, config: ContextConfig, caps: Caps)
    requires FitsBudget(transcript, FirstBudget(config, caps))
    ensures LeavesRoom(config, SummaryRequest(transcript, Some(FirstCap(caps))))
  {
  }

  lemma RoomForDoubled(config: ContextConfig, items: seq<Item>, request: SummaryRequest, doubled: nat)
    requires request.maxOutputTokens == Some(doubled)
    requires doubled < config.Wall() ==> ShowsWithin(config, items, request.transcript, config.Wall() - doubled)
    ensures LeavesRoom(config, request)
  {
    hide Renders, CeilTokens;
  }

  lemma ShownWithin(config: ContextConfig, items: seq<Item>, text: string, budget: nat)
    requires Renders(text, items, config.toolResultExcerptChars, config.reasoningExcerptChars, budget)
              && FitsBudget(text, budget)
    ensures ShowsWithin(config, items, text, budget)
  {
    hide Renders, FitsBudget;
  }

  datatype PrepareAnswer =
    | SendUnchanged
    | ReplaceWith(items: seq<Item>, usage: Option<Usage>)
    | PrepareCancelled
    | PrepareFailed

  /** A result outside the tail was shortened, and nothing else changed. */
  ghost predicate Trims(config: ContextConfig, history: seq<Item>, items: seq<Item>) {
    exists start :: 0 <= start <= |history| && Cut(SegmentsOf(history), history, |history|)
                    && IsTailStart(history, SegmentsOf(history), config.keepRecentTokens, start)
                    && items == TrimTo(history, start, config.toolResultExcerptChars) && items != history
  }

  /** Trimming is due, and what it takes out brings the next input below the threshold. */
  ghost predicate TrimIsEnough(config: ContextConfig, history: seq<Item>, lastUsage: Option<Usage>, items: seq<Item>) {
    var nextInput := NextInput(history, lastUsage);
    && config.trimAtTokens.Some? && nextInput >= config.trimAtTokens.value && Trims(config, history, items)
    && Minus(nextInput, Minus(EstimateTokens(history), EstimateTokens(items))) < config.summarizeAtTokens
  }

  /** `prepare`: nothing below the thresholds, a trim where that is enough, else one summary. A
      failure counts only when the next input would reach the wall. */
  method Prepare(config: ContextConfig, caps: Caps, history: seq<Item>, lastUsage: Option<Usage>)
    returns (answer: PrepareAnswer, requests: seq<SummaryRequest>, answers: seq<Answer>)
    requires config.IsValid()
    ensures AreRequests(config, caps, history, requests) && |answers| == |requests|
    ensures history == [] ==> answer == SendUnchanged
    ensures history != [] && NextInput(history, lastUsage) >= config.Wall() ==> !answer.SendUnchanged?
    ensures NextInput(history, lastUsage) < config.summarizeAtTokens ==>
              requests == [] && !answer.PrepareFailed? && !answer.PrepareCancelled?
    ensures (NextInput(history, lastUsage) < config.summarizeAtTokens
             && (config.trimAtTokens.None? || NextInput(history, lastUsage) < config.trimAtTokens.value)) ==>
               answer.SendUnchanged?
    // A trim is returned exactly when it is enough.
    ensures answer.ReplaceWith? && requests == [] ==>
              TrimIsEnough(config, history, lastUsage, answer.items) && answer.usage == None
    ensures (exists items :: TrimIsEnough(config, history, lastUsage, items)) ==> answer.ReplaceWith? && requests == []
    // Otherwise a history at the threshold is summarized, and the driver's answers decide.
    ensures history != [] && NextInput(history, lastUsage) >= config.summarizeAtTokens && !answer.ReplaceWith?
              && requests == [] ==>
              forall start: nat :: IsFullTail(config, history, start) ==> !IsSent(config, caps, history, start)
    ensures requests != [] ==>
              exists driven :: FollowsAnswers(config, caps, history, answers, driven)
                               && answer == PreparedFrom(driven, NextInput(history, lastUsage) < config.Wall())
    ensures answer.ReplaceWith? && requests != [] ==> Replaces(config, history, answer.items)
    ensures answer.PrepareFailed? ==> NextInput(history, lastUsage) >= config.Wall()
  {
    hide Replaces, NextInput, EstimateTokens, Trims, AreRequests, FollowsAnswers, IsFullTail, IsSent, EndsUnsent,
         TrimIsEnough;
    requests, answers := [], [];
    NoRequests(config, caps, history);
    if history == [] {
      NothingToTrim(config, lastUsage);
      return SendUnchanged, [], [];
    }
    var nextInput := NextInput(history, lastUsage);
    if config.trimAtTokens.Some? && nextInput >= config.trimAtTokens.value {
      var trimmed := TrimHistory(config, history);
      if trimmed.Some? {
        OneTrim(config, history, lastUsage, trimmed.value);
        var removed := Minus(EstimateTokens(history), EstimateTokens(trimmed.value));
        if Minus(nextInput, removed) < config.summarizeAtTokens {
          return ReplaceWith(trimmed.value, None), [], [];
        }
      } else {
        NoTrim(config, history, lastUsage);
      }
    } else {
      NotDue(config, history, lastUsage);
    }
    if nextInput < config.summarizeAtTokens {
      return SendUnchanged, [], [];
    }
    var driven;
    driven, requests, answers := Summarize(config, caps, history);
    BuiltReplaces(config, caps, history, requests, answers, driven);
    answer := PreparedFrom(driven, nextInput < config.Wall());
  }

  /** What a summarization means for the next request. */
  function PreparedFrom(driven: Driven, belowWall: bool): PrepareAnswer {
    match driven
    case DriverCancelled => PrepareCancelled
    case Finished(Built(items, usage)) => ReplaceWith(items, usage)
    case Finished(_) => if belowWall then SendUnchanged else PrepareFailed
  }

  lemma BuiltReplaces(config: ContextConfig, caps: Caps, history: seq<Item>, requests: seq<SummaryRequest>,
                      answers: seq<Answer>, driven: Driven)
    requires |answers| == |requests|
    requires requests != [] ==> FollowsAnswers(config, caps, history, answers, driven)
    ensures requests != [] && driven.Finished? && driven.summarized.Built? ==>
              Replaces(config, history, driven.summarized.items)
  {
    hide NoneAcceptable, Replaces, ReplacesBy, SumUsage;
    if requests != [] && driven.Finished? && driven.summarized.Built? {
      ReplacedBy(config, history, answers[|answers| - 1].text, driven.summarized.items);
    }
  }

  /** The full tail determines the trimmed history. */
  lemma OneTrim(config: ContextConfig, history: seq<Item>, lastUsage: Option<Usage>, trimmed: seq<Item>)
    requires Trims(config, history, trimmed)
    requires config.trimAtTokens.Some? && NextInput(history, lastUsage) >= config.trimAtTokens.value
    ensures TrimIsEnough(config, history, lastUsage, trimmed) <==>
            Minus(NextInput(history, lastUsage),
                  Minus(EstimateTokens(history), EstimateTokens(trimmed))) < config.summarizeAtTokens
    ensures forall items :: TrimIsEnough(config, history, lastUsage, items) ==> items == trimmed
  {
    hide NextInput, EstimateTokens, Cut, IsTailStart, SegmentsOf, TrimTo;
    forall items | TrimIsEnough(config, history, lastUsage, items) ensures items == trimmed {
      var a: nat :| a <= |history| && Cut(SegmentsOf(history), history, |history|)
              && IsTailStart(history, SegmentsOf(history), config.keepRecentTokens, a)
              && items == TrimTo(history, a, config.toolResultExcerptChars);
      var b: nat :| b <= |history| && Cut(SegmentsOf(history), history, |history|)
              && IsTailStart(history, SegmentsOf(history), config.keepRecentTokens, b)
              && trimmed == TrimTo(history, b, config.toolResultExcerptChars);
      TailStartUnique(history, SegmentsOf(history), config.keepRecentTokens, a, b);
    }
  }

  lemma EnoughTrims(config: ContextConfig, history: seq<Item>, lastUsage: Option<Usage>, items: seq<Item>)
    ensures TrimIsEnough(config, history, lastUsage, items) ==> Trims(config, history, items)
  {
    hide NextInput, EstimateTokens, Trims;
  }

  lemma NoTrim(config: ContextConfig, history: seq<Item>, lastUsage: Option<Usage>)
    requires forall items :: !Trims(config, history, items)
    ensures forall items :: !TrimIsEnough(config, history, lastUsage, items)
  {
    hide NextInput, EstimateTokens, Trims;
  }

  lemma NotDue(config: ContextConfig, history: seq<Item>, lastUsage: Option<Usage>)
    requires config.trimAtTokens.None? || NextInput(history, lastUsage) < config.trimAtTokens.value
    ensures forall items :: !TrimIsEnough(config, history, lastUsage, items)
  {
    hide NextInput, EstimateTokens, Trims;
  }

  lemma NothingToTrim(config: ContextConfig, lastUsage: Option<Usage>)
    ensures forall items :: !TrimIsEnough(config, [], lastUsage, items)
  {
    hide NextInput, EstimateTokens;
    forall items ensures !Trims(config, [], items) {
      hide Cut, IsTailStart, SegmentsOf;
    }
  }

  /** Without last usage the figure compared is the trimmed history's own estimate, so a trim that
      is returned brings it below the threshold. */
  lemma {:induction false} EnoughIsBelowThreshold(config: ContextConfig, history: seq<Item>, items: seq<Item>)
    requires TrimIsEnough(config, history, None, items)
    ensures EstimateTokens(items) < config.summarizeAtTokens && EstimateTokens(items) <= EstimateTokens(history)
  {
    hide Cut, IsTailStart, SegmentsOf, CeilTokens, TrimTo;
    var start: nat :| start <= |history| && items == TrimTo(history, start, config.toolResultExcerptChars);
    TrimChars(history, start, config.toolResultExcerptChars);
    CeilTokensMonotone(Chars(items), Chars(history));
  }

  method TrimHistory(config: ContextConfig, history: seq<Item>) returns (trimmed: Option<seq<Item>>)
    ensures trimmed.Some? ==> Trims(config, history, trimmed.value)
    ensures trimmed.None? ==> forall items :: !Trims(config, history, items)
  {
    hide SegmentsOf, Cut, IsTailStart, EstimateTokens, TrimTo;
    var segments, start := FullTail(config, history);
    trimmed := TrimOldResults(history, start, config.toolResultExcerptChars);
    forall items | Trims(config, history, items)
      ensures items == TrimTo(history, start, config.toolResultExcerptChars)
    {
      var a: nat :| a <= |history| && Cut(SegmentsOf(history), history, |history|)
              && IsTailStart(history, SegmentsOf(history), config.keepRecentTokens, a)
              && items == TrimTo(history, a, config.toolResultExcerptChars);
      TailStartUnique(history, SegmentsOf(history), config.keepRecentTokens, a, start);
    }
  }

  datatype CompactAnswer =
    | Compacted(items: seq<Item>, usage: Option<Usage>, tokensBefore: nat, tokensAfter: nat)
    | CompactUnchanged(tokens: nat)
    | CompactCancelled
    | CompactFailed

  /** No unit is older than the verbatim tail, or all that is older is a summary already. */
  ghost predicate NothingToCompact(config: ContextConfig, history: seq<Item>, start: nat) {
    start <= SegmentsOf(history).preludeEnd || !HasMaterial(history, SegmentsOf(history), start)
  }

  /** Manual compaction: one summary whatever the threshold, unless no unit is older than the
      verbatim tail. */
  method CompactNow(config: ContextConfig, caps: Caps, history: seq<Item>)
    returns (answer: CompactAnswer, requests: seq<SummaryRequest>, answers: seq<Answer>)
    ensures AreRequests(config, caps, history, requests) && |answers| == |requests|
    ensures answer.Compacted? ==> requests != [] && Replaces(config, history, answer.items)
                                  && answer.tokensBefore == EstimateTokens(history)
                                    && answer.tokensAfter == EstimateTokens(answer.items)
    ensures answer.CompactUnchanged? ==> requests == [] && answer.tokens == EstimateTokens(history)
    ensures forall start: nat :: IsFullTail(config, history, start) ==>
              && (answer.CompactUnchanged? <==> NothingToCompact(config, history, start))
              && (requests == [] && !answer.CompactUnchanged? ==>
                    answer.CompactFailed? && SummariesExceed(config, caps, history[..start]))
    ensures requests != [] ==>
              exists driven :: FollowsAnswers(config, caps, history, answers, driven)
                               && answer == CompactedFrom(driven, EstimateTokens(history))
  {
    hide Replaces, EstimateTokens, FollowsAnswers, HasMaterial, SummariesExceed, AreRequests;
    var tokens := EstimateTokens(history);
    var segments, start := FullTail(config, history);
    TailIsCut(config, history, start);
    hide IsFullTail, SegmentsOf;
    forall s: nat | IsFullTail(config, history, s) ensures s == start {
      FullTailUnique(config, history, s, start);
    }
    NoRequests(config, caps, history);
    if start <= segments.preludeEnd {
      return CompactUnchanged(tokens), [], [];
    }
    var driven;
    driven, requests, answers := Summarize(config, caps, history);
    BuiltReplaces(config, caps, history, requests, answers, driven);
    if requests != [] { NotUnsent(config, caps, history, answers, driven); }
    answer := CompactedFrom(driven, tokens);
  }

  lemma NotUnsent(config: ContextConfig, caps: Caps, history: seq<Item>, answers: seq<Answer>, driven: Driven)
    requires answers != [] && FollowsAnswers(config, caps, history, answers, driven)
    ensures driven.Finished? ==> !driven.summarized.NothingToSummarize?
  {
    hide NoneAcceptable, ReplacesBy, SumUsage;
  }

  /** What a summarization means for a compaction that was asked for. */
  function CompactedFrom(driven: Driven, tokens: nat): CompactAnswer {
    match driven
    case DriverCancelled => CompactCancelled
    case Finished(Built(items, usage)) => Compacted(items, usage, tokens, EstimateTokens(items))
    case Finished(NothingToSummarize) => CompactUnchanged(tokens)
    case Finished(Failed) => CompactFailed
  }
}
