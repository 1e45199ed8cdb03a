/** What a summary is made from: the rendered blocks of a history (render.rs). */
module Render {
  import opened Contracts
  import opened Estimate
  import opened Plan

  const INPUT_EXCERPT_CHARS: nat := 500
  const REASONING_PREFIX := "Reasoning (excerpt): "
  const MAX_BLOCK_CHARS: nat := 64 * 1024
  const SUMMARY_HEADING := "## Previous summary\n"

  /** No text in memory is longer than this. */
  const ISIZE_MAX: nat := 0x7fff_ffff_ffff_ffff

  // ------------------------------------------------------------------ text

  function Digits(n: nat): (text: string)
    ensures text != []
  {
    var digit := ['0' + (n % 10) as char];
    if n < 10 then digit else Digits(n / 10) + digit
  }

  function JoinWith(separator: string, parts: seq<string>): string {
    if parts == [] then []
    else if |parts| == 1 then parts[0]
    else parts[0] + separator + JoinWith(separator, parts[1..])
  }

  function Total(parts: seq<string>): nat {
    if parts == [] then 0 else |parts[0]| + Total(parts[1..])
  }

  lemma {:induction false} JoinLength(separator: string, parts: seq<string>)
    ensures |JoinWith(separator, parts)| == Total(parts) + |separator| * (if parts == [] then 0 else |parts| - 1)
  {
    if |parts| > 1 {
      JoinLength(separator, parts[1..]);
      assert |separator| * (|parts| - 1) == |separator| + |separator| * (|parts| - 2);
    } else if |parts| == 1 {
      assert parts[1..] == [];
    }
  }

  lemma {:induction false} TotalConcat(a: seq<string>, b: seq<string>)
    ensures Total(a + b) == Total(a) + Total(b)
  {
    if a == [] {
      assert a + b == b;
    } else {
      TotalConcat(a[1..], b);
      assert (a + b)[1..] == a[1..] + b;
    }
  }

  function FirstChars(text: string, limit: nat): string {
    if |text| <= limit then text else text[..limit]
  }

  /** A text cut in its middle, with a note of how much is missing. */
  function Excerpt(text: string, limit: nat): string {
    if |text| <= limit then text
    else
      var head := limit / 2;
      text[..head] + "\n[… " + Digits(|text| - limit) + " chars omitted …]\n" + text[|text| - (limit - head)..]
  }

  // ------------------------------------------------------------------ blocks

  function StatusName(status: ToolStatus): string {
    match status
    case Okay => "ok"
    case Error => "error"
    case Unavailable => "unavailable"
    case Denied => "denied"
    case Cancelled => "cancelled"
    case Unknown => "unknown"
  }

  function UserBlockText(block: UserBlock): string {
    match block
    case UserText(text) => text
    case Image(_, _, placeholder) => placeholder
    case File(line) => line
  }

  function TextProjection(blocks: seq<UserBlock>): string {
    JoinWith("\n", seq(|blocks|, i requires 0 <= i < |blocks| => UserBlockText(blocks[i])))
  }

  /** One inner block's line, in at most `room` characters; calls keep their own bound. */
  function Part(inner: AssistantBlock, reasoningChars: nat, room: nat): Option<string> {
    match inner
    case Reasoning(text, _) =>
      if reasoningChars > 0 && text != [] then Some(FirstChars(REASONING_PREFIX + Excerpt(text, reasoningChars), room)) else None
    case TextBlock(text) => Some(FirstChars(text, room))
    case CallBlock(call) => Some("→ " + call.name + "(" + FirstChars(call.input.raw, INPUT_EXCERPT_CHARS) + ")")
  }

  /** The lines of an assistant item when its first ones used `used` characters. */
  function Parts(blocks: seq<AssistantBlock>, reasoningChars: nat, limit: nat, used: nat): seq<string> {
    if blocks == [] || used >= limit then []
    else
      var part := Part(blocks[0], reasoningChars, limit - used);
      if part.None? then Parts(blocks[1..], reasoningChars, limit, used)
      else [part.value] + Parts(blocks[1..], reasoningChars, limit, used + |part.value|)
  }

  /** The lines of an assistant item, none of them bounded by the item. */
  function WholeParts(blocks: seq<AssistantBlock>, reasoningChars: nat): seq<string> {
    if blocks == [] then []
    else
      var part := Part(blocks[0], reasoningChars, PartSize(blocks[0], reasoningChars));
      (if part.None? then [] else [part.value]) + WholeParts(blocks[1..], reasoningChars)
  }

  function PartSize(inner: AssistantBlock, reasoningChars: nat): nat {
    match inner
    case Reasoning(text, _) => |REASONING_PREFIX + Excerpt(text, reasoningChars)|
    case TextBlock(text) => |text|
    case CallBlock(_) => 0
  }

  function AssistantBlockText(parts: seq<string>): string {
    if parts == [] then "## Assistant" else "## Assistant\n" + JoinWith("\n", parts)
  }

  /** The block of one item, its texts bounded by `limit`. */
  function BlockOf(item: Item, excerptChars: nat, reasoningChars: nat, limit: nat): string {
    match item
    case User(text) => "## User\n" + FirstChars(text, limit)
    case UserContent(blocks) => "## User\n" + FirstChars(TextProjection(blocks), limit)
    case Inbox(kind, text) => (if kind.Notification? then "## Notification\n" else "## Steering\n") + FirstChars(text, limit)
    case Assistant(assistant) => AssistantBlockText(Parts(assistant.blocks, reasoningChars, limit, 0))
    case ToolResult(result) =>
      "## Result of " + result.name + " [" + StatusName(result.status) + "]\n" + Excerpt(result.content, excerptChars)
  }

  /** The block of one item with no text shortened. */
  function WholeBlock(item: Item, excerptChars: nat, reasoningChars: nat): string {
    match item
    case User(text) => "## User\n" + text
    case UserContent(blocks) => "## User\n" + TextProjection(blocks)
    case Inbox(kind, text) => (if kind.Notification? then "## Notification\n" else "## Steering\n") + text
    case Assistant(assistant) => AssistantBlockText(WholeParts(assistant.blocks, reasoningChars))
    case ToolResult(_) => BlockOf(item, excerptChars, reasoningChars, 0)
  }

  /** `block`: the assistant's lines are gathered while the item's bound lasts. */
  method Block(item: Item, excerptChars: nat, reasoningChars: nat, limit: nat) returns (text: string)
    ensures text == BlockOf(item, excerptChars, reasoningChars, limit)
  {
    hide Part, JoinWith, Excerpt, FirstChars, TextProjection, StatusName;
    if !item.Assistant? {
      return BlockOf(item, excerptChars, reasoningChars, limit);
    }
    var blocks := item.assistant.blocks;
    var parts: seq<string>, used: nat, i := [], 0, 0;
    ghost var all := Parts(blocks, reasoningChars, limit, 0);
    assert blocks[0..] == blocks;
    while i < |blocks| && used < limit
      invariant 0 <= i <= |blocks|
      invariant all == parts + Parts(blocks[i..], reasoningChars, limit, used)
    {
      var part := Part(blocks[i], reasoningChars, limit - used);
      assert blocks[i..][1..] == blocks[i + 1..];
      if part.Some? {
        parts := parts + [part.value];
        used := used + |part.value|;
      }
      i := i + 1;
    }
    assert parts + [] == parts;
    return AssistantBlockText(parts);
  }

  // ------------------------------------------------------------------ no silent shortening

  lemma {:induction false} PartsTotal(blocks: seq<AssistantBlock>, reasoningChars: nat, limit: nat, used: nat)
    requires used + Total(Parts(blocks, reasoningChars, limit, used)) < limit
    ensures Parts(blocks, reasoningChars, limit, used) == WholeParts(blocks, reasoningChars)
  {
    if blocks != [] {
      var part := Part(blocks[0], reasoningChars, limit - used);
      var rest := Parts(blocks[1..], reasoningChars, limit, used + if part.None? then 0 else |part.value|);
      if part.Some? {
        assert ([part.value] + rest)[1..] == rest;
      }
      PartsTotal(blocks[1..], reasoningChars, limit, used + if part.None? then 0 else |part.value|);
      PartWhole(blocks[0], reasoningChars, limit - used);
    }
  }

  /** A part smaller than its room was not cut. */
  lemma PartWhole(inner: AssistantBlock, reasoningChars: nat, room: nat)
    requires var part := Part(inner, reasoningChars, room); part.Some? ==> |part.value| < room
    ensures Part(inner, reasoningChars, room) == Part(inner, reasoningChars, PartSize(inner, reasoningChars))
  {
    hide Excerpt;
  }

  /** A block shorter than the bound shows every text in full. */
  lemma {:induction false} ShortBlockIsWhole(item: Item, excerptChars: nat, reasoningChars: nat, limit: nat)
    requires |BlockOf(item, excerptChars, reasoningChars, limit)| < limit
    ensures BlockOf(item, excerptChars, reasoningChars, limit) == WholeBlock(item, excerptChars, reasoningChars)
  {
    hide Parts, WholeParts, TextProjection, JoinWith, Excerpt;
    if item.Assistant? {
      var parts := Parts(item.assistant.blocks, reasoningChars, limit, 0);
      JoinLength("\n", parts);
      if parts == [] { NothingTotal(); }
      PartsTotal(item.assistant.blocks, reasoningChars, limit, 0);
    }
  }

  lemma NothingTotal()
    ensures Total([]) == 0
  {
  }

  // ------------------------------------------------------------------ the transcript

  /** The previous summary's text behind the marker. */
  function SummaryBody(text: string): string {
    if SUMMARY_MARKER <= text then
      var rest := text[|SUMMARY_MARKER|..];
      if "\n" <= rest then rest[1..] else rest
    else text
  }

  function SummaryBlock(item: Item): string {
    if item.User? then SUMMARY_HEADING + SummaryBody(item.text) else ""
  }

  function SummaryBlocks(items: seq<Item>): seq<string> {
    if items == [] then []
    else SummaryBlocks(items[..|items| - 1])
         + if IsSummaryItem(items[|items| - 1]) then [SummaryBlock(items[|items| - 1])] else []
  }

  function OtherBlocks(items: seq<Item>, excerptChars: nat, reasoningChars: nat, limit: nat): seq<string> {
    if items == [] then []
    else OtherBlocks(items[..|items| - 1], excerptChars, reasoningChars, limit)
         + if IsSummaryItem(items[|items| - 1]) then []
           else [BlockOf(items[|items| - 1], excerptChars, reasoningChars, limit)]
  }

  function Omission(dropped: nat): string {
    "[" + Digits(dropped) + " earlier items omitted: the session was too long to summarize in one pass]"
  }

  function Pieces(summaries: seq<string>, others: seq<string>, dropped: nat): seq<string>
    requires dropped <= |others|
  {
    summaries + (if dropped > 0 then [Omission(dropped)] else []) + others[dropped..]
  }

  /** The summaries, a line for what was dropped, and the blocks from the first kept one on. */
  function Assemble(summaries: seq<string>, others: seq<string>, dropped: nat): string
    requires dropped <= |others|
  {
    JoinWith("\n\n", Pieces(summaries, others, dropped))
  }

  /** The length the assembled text would have. */
  lemma {:induction false} AssembledLength(summaries: seq<string>, others: seq<string>, dropped: nat)
    requires dropped <= |others|
    ensures var blocks := |summaries| + |others| - dropped + if dropped > 0 then 1 else 0;
            |Assemble(summaries, others, dropped)|
            == Total(summaries) + Total(others[dropped..]) + (if dropped > 0 then |Omission(dropped)| else 0)
               + 2 * (if blocks == 0 then 0 else blocks - 1)
  {
    hide Omission, JoinWith;
    var line := if dropped > 0 then [Omission(dropped)] else [];
    JoinLength("\n\n", Pieces(summaries, others, dropped));
    TotalConcat(summaries + line, others[dropped..]);
    TotalConcat(summaries, line);
    if dropped > 0 {
      assert line[1..] == [];
    }
  }

  predicate FitsBudget(text: string, budget: nat) {
    CeilTokens(|text|) <= budget
  }

  /** The transcript drops the fewest oldest blocks that make it fit; when not even the line
      that says so fits, only the previous summaries remain. */
  ghost predicate IsTranscript(text: string, summaries: seq<string>, others: seq<string>, budget: nat) {
    || (exists d :: 0 <= d <= |others| && text == Assemble(summaries, others, d) && FitsBudget(text, budget)
                    && forall e :: 0 <= e < d ==> !FitsBudget(Assemble(summaries, others, e), budget))
    || (text == JoinWith("\n\n", summaries)
        && forall e :: 0 <= e <= |others| ==> !FitsBudget(Assemble(summaries, others, e), budget))
  }

  /** `d` is the fewest of the oldest blocks that have to go for the rest to fit; when nothing
      makes it fit, all of them. */
  ghost predicate Omits(summaries: seq<string>, others: seq<string>, budget: nat, d: nat) {
    && d <= |others|
    && (forall e :: 0 <= e < d ==> !FitsBudget(Assemble(summaries, others, e), budget))
    && (d < |others| ==> FitsBudget(Assemble(summaries, others, d), budget))
  }

  /** What is left when `d` blocks went: with the line that says so, if that fits. */
  function WithOmitted(summaries: seq<string>, others: seq<string>, budget: nat, d: nat): string
    requires d <= |others|
  {
    var text := Assemble(summaries, others, d);
    if FitsBudget(text, budget) then text else JoinWith("\n\n", summaries)
  }

  /** How many blocks go is determined, and with it the transcript. */
  lemma {:induction false} TranscriptIsDetermined(text: string, summaries: seq<string>, others: seq<string>,
                                                  budget: nat, d: nat)
    requires Omits(summaries, others, budget, d)
    ensures IsTranscript(text, summaries, others, budget) <==> text == WithOmitted(summaries, others, budget, d)
    ensures forall e: nat :: Omits(summaries, others, budget, e) ==> e == d
  {
    hide Assemble, FitsBudget, JoinWith;
    assert IsTranscript(text, summaries, others, budget) <==> text == WithOmitted(summaries, others, budget, d);
  }

  lemma {:induction false} FewestOmitted(summaries: seq<string>, others: seq<string>, budget: nat, from: nat)
    returns (d: nat)
    requires from <= |others| && forall e :: 0 <= e < from ==> !FitsBudget(Assemble(summaries, others, e), budget)
    ensures Omits(summaries, others, budget, d)
    decreases |others| - from
  {
    hide Assemble, FitsBudget;
    if from == |others| || FitsBudget(Assemble(summaries, others, from), budget) {
      d := from;
    } else {
      d := FewestOmitted(summaries, others, budget, from + 1);
    }
  }

  /** Where the items stand that are no summaries, in order. */
  function OtherIndices(items: seq<Item>): (indices: seq<nat>)
    ensures forall k :: 0 <= k < |indices| ==> indices[k] < |items| && !IsSummaryItem(items[indices[k]])
    ensures forall j, k :: 0 <= j < k < |indices| ==> indices[j] < indices[k]
    ensures forall i :: 0 <= i < |items| && !IsSummaryItem(items[i]) ==> i in indices
  {
    if items == [] then []
    else
      var n := |items| - 1;
      OtherIndices(items[..n]) + if IsSummaryItem(items[n]) then [] else [n]
  }

  /** Block `k` is that of the item at the `k`-th of these places. */
  lemma {:induction false} BlocksOfIndices(items: seq<Item>, excerptChars: nat, reasoningChars: nat, limit: nat)
    ensures var others, indices := OtherBlocks(items, excerptChars, reasoningChars, limit), OtherIndices(items);
            && |others| == |indices|
            && forall k :: 0 <= k < |others| ==>
              others[k] == BlockOf(items[indices[k]], excerptChars, reasoningChars, limit)
  {
    hide BlockOf, IsSummaryItem;
    if items != [] {
      var n := |items| - 1;
      BlocksOfIndices(items[..n], excerptChars, reasoningChars, limit);
      assert forall i :: 0 <= i < n ==> items[..n][i] == items[i];
    }
  }

  /** `text` is what the items are shown as within the budget. */
  ghost predicate Renders(text: string, items: seq<Item>, excerptChars: nat, reasoningChars: nat, budget: nat) {
    IsTranscript(text, SummaryBlocks(items), OtherBlocks(items, excerptChars, reasoningChars, PerItemLimit(budget)),
                 budget)
  }

  /** The most characters one item may contribute. */
  function PerItemLimit(budget: nat): nat {
    var chars := Sat(Sat(budget * 7) / 2 + 1);
    if chars > MAX_BLOCK_CHARS then chars else MAX_BLOCK_CHARS
  }

  /** `transcript`: a running character count decides what to drop before anything is built. */
  method Transcript(items: seq<Item>, excerptChars: nat, reasoningChars: nat, budget: nat) returns (text: string)
    ensures Renders(text, items, excerptChars, reasoningChars, budget)
  {
    var summaries, others := Gather(items, excerptChars, reasoningChars, PerItemLimit(budget));
    text := Fit(summaries, others, budget);
  }

  method Gather(items: seq<Item>, excerptChars: nat, reasoningChars: nat, limit: nat)
    returns (summaries: seq<string>, others: seq<string>)
    ensures summaries == SummaryBlocks(items)
    ensures others == OtherBlocks(items, excerptChars, reasoningChars, limit)
  {
    hide BlockOf, SummaryBlock, IsSummaryItem;
    summaries, others := [], [];
    for i := 0 to |items|
      invariant summaries == SummaryBlocks(items[..i])
      invariant others == OtherBlocks(items[..i], excerptChars, reasoningChars, limit)
    {
      assert items[..i + 1][..i] == items[..i];
      if IsSummaryItem(items[i]) {
        summaries := summaries + [SummaryBlock(items[i])];
      } else {
        var block := Block(items[i], excerptChars, reasoningChars, limit);
        others := others + [block];
      }
    }
    assert items[..|items|] == items;
  }

  method Fit(summaries: seq<string>, others: seq<string>, budget: nat) returns (text: string)
    ensures IsTranscript(text, summaries, others, budget)
  {
    hide CeilTokens, Assemble, Omission;
    var summaryChars := TotalOf(summaries);
    var otherChars := TotalOf(others);
    assert others[0..] == others;
    var dropped := 0;
    while dropped < |others|
      invariant 0 <= dropped <= |others|
      invariant otherChars == Total(others[dropped..])
      invariant forall e :: 0 <= e < dropped ==> !FitsBudget(Assemble(summaries, others, e), budget)
    {
      var blocks := |summaries| + |others| - dropped + if dropped > 0 then 1 else 0;
      var omission := if dropped > 0 then |Omission(dropped)| else 0;
      var chars := summaryChars + otherChars + omission + 2 * (if blocks == 0 then 0 else blocks - 1);
      AssembledLength(summaries, others, dropped);
      if CeilTokens(chars) <= budget {
        return Assemble(summaries, others, dropped);
      }
      assert others[dropped..][1..] == others[dropped + 1..];
      otherChars := otherChars - |others[dropped]|;
      dropped := dropped + 1;
    }
    var omitted := Assemble(summaries, others, |others|);
    if CeilTokens(|omitted|) <= budget {
      return omitted;
    }
    return JoinWith("\n\n", summaries);
  }

  method TotalOf(parts: seq<string>) returns (n: nat)
    ensures n == Total(parts)
  {
    n := 0;
    var i := 0;
    assert parts[0..] == parts;
    while i < |parts|
      invariant 0 <= i <= |parts|
      invariant n + Total(parts[i..]) == Total(parts)
    {
      assert parts[i..][1..] == parts[i + 1..];
      n := n + |parts[i]|;
      i := i + 1;
    }
  }

  /** The characters previous summaries take, without what separates them. */
  function MandatoryChars(items: seq<Item>): nat {
    if items == [] then 0
    else MandatoryChars(items[..|items| - 1])
         + if IsSummaryItem(items[|items| - 1]) then |SummaryBody(items[|items| - 1].text)| + |SUMMARY_HEADING| else 0
  }

  /** `checked_transcript`: refused exactly when the previous summaries alone exceed the budget. */
  method CheckedTranscript(items: seq<Item>, excerptChars: nat, reasoningChars: nat, budget: nat)
    returns (r: Result<string, ()>)
    ensures r.Err? <==> !FitsBudget(JoinWith("\n\n", SummaryBlocks(items)), budget)
    ensures r.Ok? ==> FitsBudget(r.value, budget)
    ensures r.Ok? ==> Renders(r.value, items, excerptChars, reasoningChars, budget)
  {
    hide CeilTokens, PerItemLimit, Assemble;
    var summaries, others := SummaryBlocks(items),
          OtherBlocks(items, excerptChars, reasoningChars, PerItemLimit(budget));
    MandatoryLength(items);
    JoinLength("\n\n", summaries);
    if CeilTokens(MandatoryChars(items)) > budget {
      CeilTokensMonotone(MandatoryChars(items), |JoinWith("\n\n", summaries)|);
      return Err(());
    }
    var rendered := Transcript(items, excerptChars, reasoningChars, budget);
    SummariesFitFirst(summaries, others, budget);
    if CeilTokens(|rendered|) > budget {
      return Err(());
    }
    return Ok(rendered);
  }

  lemma {:induction false} MandatoryLength(items: seq<Item>)
    ensures MandatoryChars(items) == Total(SummaryBlocks(items))
  {
    if items != [] {
      var init, last := items[..|items| - 1], items[|items| - 1];
      MandatoryLength(init);
      if IsSummaryItem(last) {
        TotalConcat(SummaryBlocks(init), [SummaryBlock(last)]);
        assert [SummaryBlock(last)][1..] == [];
      } else {
        assert SummaryBlocks(init) + [] == SummaryBlocks(init);
      }
    }
  }

  /** Whatever fits, the summaries alone fit. */
  lemma {:induction false} SummariesFitFirst(summaries: seq<string>, others: seq<string>, budget: nat)
    ensures forall d :: 0 <= d <= |others| && FitsBudget(Assemble(summaries, others, d), budget) ==>
                          FitsBudget(JoinWith("\n\n", summaries), budget)
  {
    hide CeilTokens, JoinWith, Assemble;
    JoinLength("\n\n", summaries);
    forall d | 0 <= d <= |others| && FitsBudget(Assemble(summaries, others, d), budget)
      ensures FitsBudget(JoinWith("\n\n", summaries), budget)
    {
      AssembledLength(summaries, others, d);
      CeilTokensMonotone(|JoinWith("\n\n", summaries)|, |Assemble(summaries, others, d)|);
    }
  }

  /** With at most one previous summary, rendering fails only when that summary does not fit. */
  lemma {:induction false} OneSummary(items: seq<Item>, budget: nat)
    requires |SummaryBlocks(items)| <= 1
    ensures FitsBudget(JoinWith("\n\n", SummaryBlocks(items)), budget) <==> CeilTokens(MandatoryChars(items)) <= budget
  {
    hide CeilTokens;
    MandatoryLength(items);
    JoinLength("\n\n", SummaryBlocks(items));
  }

  // ------------------------------------------------------------------ every kept block is whole

  lemma {:induction false} PieceLength(separator: string, parts: seq<string>, i: nat)
    requires i < |parts|
    ensures |parts[i]| <= |JoinWith(separator, parts)|
  {
    if |parts| > 1 && i > 0 {
      PieceLength(separator, parts[1..], i - 1);
    }
  }

  /** A text within the budget is shorter than the per-item bound. */
  lemma FitsBelowLimit(text: string, budget: nat)
    requires FitsBudget(text, budget) && |text| <= ISIZE_MAX
    ensures |text| < PerItemLimit(budget)
  {
  }

  lemma {:induction false} OtherIsSome(items: seq<Item>, excerptChars: nat, reasoningChars: nat, limit: nat, k: nat)
    requires k < |OtherBlocks(items, excerptChars, reasoningChars, limit)|
    ensures |OtherBlocks(items, excerptChars, reasoningChars, limit)|
              == |WholeBlocks(items, excerptChars, reasoningChars)|
    ensures exists i :: 0 <= i < |items|
                        && OtherBlocks(items, excerptChars, reasoningChars, limit)[k]
                          == BlockOf(items[i], excerptChars, reasoningChars, limit)
                        && WholeBlocks(items, excerptChars, reasoningChars)[k]
                          == WholeBlock(items[i], excerptChars, reasoningChars)
  {
    hide BlockOf, WholeBlock, IsSummaryItem;
    var n := |items| - 1;
    var before := OtherBlocks(items[..n], excerptChars, reasoningChars, limit);
    BlocksAlign(items[..n], excerptChars, reasoningChars, limit);
    if k < |before| {
      OtherIsSome(items[..n], excerptChars, reasoningChars, limit, k);
      var i :| 0 <= i < |items[..n]|
               && before[k] == BlockOf(items[..n][i], excerptChars, reasoningChars, limit)
               && WholeBlocks(items[..n], excerptChars, reasoningChars)[k]
                 == WholeBlock(items[..n][i], excerptChars, reasoningChars);
      assert items[i] == items[..n][i];
    }
  }

  lemma {:induction false} BlocksAlign(items: seq<Item>, excerptChars: nat, reasoningChars: nat, limit: nat)
    ensures |OtherBlocks(items, excerptChars, reasoningChars, limit)|
              == |WholeBlocks(items, excerptChars, reasoningChars)|
  {
    hide BlockOf, WholeBlock;
    if items != [] {
      BlocksAlign(items[..|items| - 1], excerptChars, reasoningChars, limit);
    }
  }

  function WholeBlocks(items: seq<Item>, excerptChars: nat, reasoningChars: nat): seq<string> {
    if items == [] then []
    else WholeBlocks(items[..|items| - 1], excerptChars, reasoningChars)
         + if IsSummaryItem(items[|items| - 1]) then []
           else [WholeBlock(items[|items| - 1], excerptChars, reasoningChars)]
  }

  /** A returned transcript is assembled from whole blocks: the per-item bound never shortens
      what is shown, it only makes an oversized block be dropped. */
  lemma {:induction false} NothingShownIsShortened(items: seq<Item>, excerptChars: nat, reasoningChars: nat,
                                                   budget: nat, d: nat, text: string)
    requires d <= |OtherBlocks(items, excerptChars, reasoningChars, PerItemLimit(budget))|
    requires text == Assemble(SummaryBlocks(items), OtherBlocks(items, excerptChars, reasoningChars,
                                                                PerItemLimit(budget)), d)
    requires FitsBudget(text, budget) && |text| <= ISIZE_MAX
    ensures d <= |WholeBlocks(items, excerptChars, reasoningChars)|
    ensures text == Assemble(SummaryBlocks(items), WholeBlocks(items, excerptChars, reasoningChars), d)
  {
    hide BlockOf, WholeBlock, OtherBlocks, WholeBlocks, SummaryBlocks, PerItemLimit, JoinWith, Omission;
    var limit := PerItemLimit(budget);
    var others, whole := OtherBlocks(items, excerptChars, reasoningChars, limit),
          WholeBlocks(items, excerptChars, reasoningChars);
    var pieces := Pieces(SummaryBlocks(items), others, d);
    BlocksAlign(items, excerptChars, reasoningChars, limit);
    FitsBelowLimit(text, budget);
    forall k | d <= k < |others| ensures others[k] == whole[k] {
      OtherIsSome(items, excerptChars, reasoningChars, limit, k);
      var i :| 0 <= i < |items| && others[k] == BlockOf(items[i], excerptChars, reasoningChars, limit)
               && whole[k] == WholeBlock(items[i], excerptChars, reasoningChars);
      var at := |pieces| - (|others| - k);
      assert pieces[at] == others[k];
      PieceLength("\n\n", pieces, at);
      ShortBlockIsWhole(items[i], excerptChars, reasoningChars, limit);
    }
    assert others[d..] == whole[d..];
  }
}
