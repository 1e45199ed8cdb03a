/** How many tokens a history is taken to be (estimate.rs). */
module Estimate {
  import opened Contracts

  function Sat(n: nat): nat {
    if n <= U64_MAX then n else U64_MAX
  }

  /** `ceil(chars / 3.5)`, in saturating 64-bit arithmetic. */
  function CeilTokens(chars: nat): nat {
    Sat(Sat(chars * 2) + 6) / 7
  }

  function BlockChars(block: AssistantBlock): nat {
    match block
    case TextBlock(text) => |text|
    case Reasoning(text, replay) => |text| + if replay.Some? then |replay.value.payload| else 0
    case CallBlock(call) => |call.name| + |call.input.raw|
  }

  /** What a block counts as; an image counts as its pixels would cost, up to 1600 tokens. */
  function UserBlockChars(block: UserBlock): nat {
    match block
    case UserText(text) => |text|
    case Image(width, height, _) =>
      var tokens := width * height / 750;
      (if tokens < 1600 then tokens else 1600) * 7 / 2
    case File(line) => |line|
  }

  function BlocksChars(blocks: seq<AssistantBlock>): nat {
    if blocks == [] then 0 else BlockChars(blocks[0]) + BlocksChars(blocks[1..])
  }

  function UserBlocksChars(blocks: seq<UserBlock>): nat {
    if blocks == [] then 0 else UserBlockChars(blocks[0]) + UserBlocksChars(blocks[1..])
  }

  function ItemChars(item: Item): nat {
    match item
    case User(text) => |text|
    case UserContent(blocks) => UserBlocksChars(blocks)
    case Inbox(_, text) => |text|
    case Assistant(assistant) => BlocksChars(assistant.blocks)
    case ToolResult(result) => |result.content|
  }

  function Chars(items: seq<Item>): nat {
    if items == [] then 0 else ItemChars(items[0]) + Chars(items[1..])
  }

  function EstimateTokens(items: seq<Item>): nat {
    CeilTokens(Chars(items))
  }

  lemma {:induction false} CharsConcat(a: seq<Item>, b: seq<Item>)
    ensures Chars(a + b) == Chars(a) + Chars(b)
  {
    hide ItemChars;
    if a == [] {
      assert a + b == b;
    } else {
      CharsConcat(a[1..], b);
      assert (a + b)[1..] == a[1..] + b && (a + b)[0] == a[0];
    }
  }

  lemma CeilTokensMonotone(a: nat, b: nat)
    requires a <= b
    ensures CeilTokens(a) <= CeilTokens(b)
  {
  }

  /** It is the ceiling of chars / 3.5, for every text that can exist. */
  lemma CeilTokensIsCeiling(chars: nat)
    requires chars <= 0x7fff_ffff_ffff_fffc
    ensures 2 * chars <= 7 * CeilTokens(chars) < 2 * chars + 7
  {
  }

  /** A longer suffix never estimates lower. */
  lemma {:induction false} SuffixEstimate(items: seq<Item>, i: nat, j: nat, end: nat)
    requires i <= j <= end <= |items|
    ensures EstimateTokens(items[j..end]) <= EstimateTokens(items[i..end])
  {
    assert items[i..end] == items[i..j] + items[j..end];
    CharsConcat(items[i..j], items[j..end]);
    CeilTokensMonotone(Chars(items[j..end]), Chars(items[i..end]));
  }
}
