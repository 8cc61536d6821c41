/**
 * The two summarisers of the trace-enrichment hook: they turn a message's
 * content, or a tool result's content, into a short human-readable string.
 *
 * Content is a plain string, a list of content blocks, or any other
 * value. A block is a dictionary that may carry a `text`, a `toolUse` or
 * a `toolResult` entry, or something that is not a dictionary at all.
 * The `str(...)` rendering of a non-string content is carried as its
 * `repr`, since Python's object rendering is not modelled.
 */
module TraceSummary {
  import opened Wrappers

  /** The `toolUse` entry of a block: its `name`, when present. */
  datatype ToolUseInfo = ToolUseInfo(name: Option<string>)

  /** The `toolResult` entry of a block: its `toolUseId` and `status`, when present. */
  datatype ToolResultInfo = ToolResultInfo(toolUseId: Option<string>, status: Option<string>)

  /** A content block: a dictionary with any of the three entries, or not a dictionary. */
  datatype Block =
    | Dict(text: Option<string>, toolUse: Option<ToolUseInfo>, toolResult: Option<ToolResultInfo>)
    | NotDict

  /** The content of a message or of a tool result. */
  datatype Content =
    | Text(s: string)
    | Blocks(blocks: seq<Block>, repr: string)
    | Opaque(repr: string)

  /** Python's `s[:n]`: the first `n` characters, or all of `s` when it is shorter. */
  function Take(s: string, n: nat): (r: string)
    ensures |r| == if |s| <= n then |s| else n
    ensures r == s[..|r|]
  {
    if |s| <= n then s else s[..n]
  }

  /** How an f-string renders a value looked up with `.get`: a missing one prints as `None`. */
  function Render(v: Option<string>): string
  {
    v.GetOr("None")
  }

  // ---------------------------------------------------------------------
  // Message summary
  // ---------------------------------------------------------------------

  /**
   * What one block contributes to a message summary. A block contributes
   * exactly when it is a dictionary with at least one of the three
   * entries, and then a non-empty part; `text` wins over `toolUse`, which
   * wins over `toolResult`.
   */
  function BlockPart(b: Block): (r: Option<string>)
    ensures r.Some? <==> b.Dict? && (b.text.Some? || b.toolUse.Some? || b.toolResult.Some?)
    ensures r.Some? ==> r.value != ""
    ensures b.Dict? && b.text.Some? ==> |r.value| <= |"[text]: "| + 100
  {
    match b
    case NotDict => None
    case Dict(text, toolUse, toolResult) =>
      if text.Some? then Some("[text]: " + Take(text.value, 100))
      else if toolUse.Some? then Some("[toolUse]: " + Render(toolUse.value.name))
      else if toolResult.Some? then
        Some("[toolResult]: " + Render(toolResult.value.toolUseId) + " - " + Render(toolResult.value.status))
      else None
  }

  /** Once a block has `text`, its other entries do not matter; once it has `toolUse`, its `toolResult` does not. */
  lemma PartPrecedence(t: Option<string>, u: Option<ToolUseInfo>, r: Option<ToolResultInfo>,
                       u': Option<ToolUseInfo>, r': Option<ToolResultInfo>)
    ensures t.Some? ==> BlockPart(Dict(t, u, r)) == BlockPart(Dict(t, u', r'))
    ensures u.Some? ==> BlockPart(Dict(None, u, r)) == BlockPart(Dict(None, u, r'))
  {
  }

  /** The parts of the contributing blocks, in block order. */
  function SummaryParts(bs: seq<Block>): seq<string>
    decreases |bs|
  {
    if bs == [] then []
    else
      var last := BlockPart(bs[|bs| - 1]);
      SummaryParts(bs[..|bs| - 1]) + (if last.Some? then [last.value] else [])
  }

  /** Python's `sep.join(parts)`. */
  function Join(parts: seq<string>, sep: string): string
    decreases |parts|
  {
    if parts == [] then ""
    else if |parts| == 1 then parts[0]
    else Join(parts[..|parts| - 1], sep) + sep + parts[|parts| - 1]
  }

  /** Parts follow block order: the parts of a concatenation are the concatenated parts. */
  lemma {:induction false} SummaryPartsAppend(a: seq<Block>, b: seq<Block>)
    ensures SummaryParts(a + b) == SummaryParts(a) + SummaryParts(b)
    decreases |b|
  {
    if b == [] {
      assert a + b == a;
    } else {
      var init := b[..|b| - 1];
      SummaryPartsAppend(a, init);
      assert (a + b)[..|a + b| - 1] == a + init;
      assert (a + b)[|a + b| - 1] == b[|b| - 1];
    }
  }

  /** No part is empty. */
  lemma {:induction false} PartsNonEmpty(bs: seq<Block>)
    ensures forall k | 0 <= k < |SummaryParts(bs)| :: SummaryParts(bs)[k] != ""
  {
    if bs != [] {
      PartsNonEmpty(bs[..|bs| - 1]);
    }
  }

  /** There are no parts exactly when no block contributes. */
  lemma {:induction false} NoParts(bs: seq<Block>)
    ensures SummaryParts(bs) == [] <==> forall i | 0 <= i < |bs| :: BlockPart(bs[i]).None?
  {
    if bs != [] {
      var init := bs[..|bs| - 1];
      NoParts(init);
      assert forall i | 0 <= i < |init| :: init[i] == bs[i];
    }
  }

  /** Joining non-empty parts gives the empty string exactly when there are no parts. */
  lemma {:induction false} JoinEmpty(parts: seq<string>, sep: string)
    requires forall k | 0 <= k < |parts| :: parts[k] != ""
    ensures Join(parts, sep) == "" <==> parts == []
  {
    if |parts| > 1 {
      assert |Join(parts, sep)| >= |parts[|parts| - 1]| > 0;
    }
  }

  /**
   * The summary of a block list is empty exactly when no block
   * contributes; in particular the empty list summarises to "".
   */
  lemma SummaryEmptyIff(bs: seq<Block>)
    ensures Join(SummaryParts(bs), " | ") == "" <==> forall i | 0 <= i < |bs| :: BlockPart(bs[i]).None?
  {
    PartsNonEmpty(bs);
    JoinEmpty(SummaryParts(bs), " | ");
    NoParts(bs);
  }

  /**
   * The message summariser: a string is cut to 200 characters; a block
   * list yields the parts of its contributing blocks joined by " | "; any
   * other content is rendered and cut to 200 characters.
   */
  method SummarizeMessage(content: Content) returns (summary: string)
    ensures content.Text? ==> summary == Take(content.s, 200)
    ensures content.Blocks? ==> summary == Join(SummaryParts(content.blocks), " | ")
    ensures content.Opaque? ==> summary == Take(content.repr, 200)
    ensures !content.Blocks? ==> |summary| <= 200
  {
    match content
    case Text(s) =>
      summary := Take(s, 200);
    case Blocks(blocks, _) =>
      var parts: seq<string> := [];
      for i := 0 to |blocks|
        invariant parts == SummaryParts(blocks[..i])
      {
        assert blocks[..i + 1][..i] == blocks[..i];
        var part := BlockPart(blocks[i]);
        if part.Some? {
          parts := parts + [part.value];
        }
      }
      assert blocks[..|blocks|] == blocks;
      summary := Join(parts, " | ");
    case Opaque(repr) =>
      summary := Take(repr, 200);
  }

  // ---------------------------------------------------------------------
  // Tool-result summary
  // ---------------------------------------------------------------------

  /** A block that is a dictionary with a `text` entry. */
  predicate HasText(b: Block)
  {
    b.Dict? && b.text.Some?
  }

  /** The `text` of the first block that has one. */
  function FirstText(bs: seq<Block>): Option<string>
    decreases |bs|
  {
    if bs == [] then None
    else if HasText(bs[0]) then bs[0].text
    else FirstText(bs[1..])
  }

  /** The first text is the text of block `i` when block `i` has text and no earlier block does. */
  lemma {:induction false} FirstTextAt(bs: seq<Block>, i: nat)
    requires i < |bs| && HasText(bs[i])
    requires forall j | 0 <= j < i :: !HasText(bs[j])
    ensures FirstText(bs) == bs[i].text
  {
    if i > 0 {
      assert !HasText(bs[0]);
      FirstTextAt(bs[1..], i - 1);
    }
  }

  /** There is no first text exactly when no block has text. */
  lemma {:induction false} FirstTextNone(bs: seq<Block>)
    ensures FirstText(bs).None? <==> forall j | 0 <= j < |bs| :: !HasText(bs[j])
  {
    if bs != [] && !HasText(bs[0]) {
      FirstTextNone(bs[1..]);
      assert forall j | 1 <= j < |bs| :: bs[j] == bs[1..][j - 1];
    }
  }

  /**
   * The tool-result summariser: in a block list, the text of the first
   * block that has one, cut to 200 characters, ignoring every later
   * block; without such a block, or for any other content, the content's
   * rendering cut to 200 characters.
   */
  method SummarizeToolResult(content: Content) returns (summary: string)
    ensures content.Blocks? && FirstText(content.blocks).Some? ==> summary == Take(FirstText(content.blocks).value, 200)
    ensures content.Blocks? && FirstText(content.blocks).None? ==> summary == Take(content.repr, 200)
    ensures content.Text? ==> summary == Take(content.s, 200)
    ensures content.Opaque? ==> summary == Take(content.repr, 200)
    ensures |summary| <= 200
  {
    if content.Blocks? {
      var blocks := content.blocks;
      for i := 0 to |blocks|
        invariant forall j | 0 <= j < i :: !HasText(blocks[j])
      {
        if blocks[i].Dict? && blocks[i].text.Some? {
          FirstTextAt(blocks, i);
          return Take(blocks[i].text.value, 200);
        }
      }
      FirstTextNone(blocks);
      return Take(content.repr, 200);
    }
    match content
    case Text(s) =>
      summary := Take(s, 200);
    case Opaque(repr) =>
      summary := Take(repr, 200);
  }
}
