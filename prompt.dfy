/** Context rendering and the prompt texts the answer synthesizer sends (embedding.py, 95-118). */
module Prompt {
  import opened Wrappers
  import opened Text

  /** A retrieved passage; either field may be missing from the block. */
  datatype ContextBlock = ContextBlock(chunkId: Option<string>, text: Option<string>)

  const UnknownChunkId: string := "unknown"
  const BlockSeparator: string := "\n\n"

  /** The identifier a block renders with: `block.get('chunk_id', 'unknown')`. */
  function ChunkIdOf(b: ContextBlock): string
  {
    b.chunkId.GetOr(UnknownChunkId)
  }

  /** The text a block renders with: `block.get('text', '')`. */
  function TextOf(b: ContextBlock): string
  {
    b.text.GetOr("")
  }

  /** The line `[<chunk_id>] <text>` for one block. */
  function RenderBlock(b: ContextBlock): (line: string)
    ensures |line| == |ChunkIdOf(b)| + |TextOf(b)| + 3
    ensures line[0] == '[' && line[1..|ChunkIdOf(b)| + 1] == ChunkIdOf(b)
    ensures line[|ChunkIdOf(b)| + 1..|ChunkIdOf(b)| + 3] == "] "
    ensures line[|ChunkIdOf(b)| + 3..] == TextOf(b)
  {
    "[" + ChunkIdOf(b) + "] " + TextOf(b)
  }

  /** Reads a rendered line back: the identifier up to the first `]`, then `"] "`, then the text. */
  function ParseLine(line: string): Option<(string, string)>
  {
    if |line| == 0 || line[0] != '[' then None
    else match FirstIndexOf(line[1..], ']')
      case None => None
      case Some(k) =>
        if k + 2 < |line| && line[k + 2] == ' ' then Some((line[1..k + 1], line[k + 3..])) else None
  }

  /** A block renders to a line from which its identifier and text can be read back,
      provided the identifier itself holds no `]`. */
  lemma RenderBlockRoundTrip(b: ContextBlock)
    requires ']' !in ChunkIdOf(b)
    ensures ParseLine(RenderBlock(b)) == Some((ChunkIdOf(b), TextOf(b)))
  {
    var id, line := ChunkIdOf(b), RenderBlock(b);
    var tail := line[1..];
    assert tail[..|id|] == id;
    assert tail[|id|] == ']';
    assert forall j :: 0 <= j < |id| ==> tail[j] == id[j];
  }

  /** Missing fields fall back to `unknown` and to the empty text. */
  lemma MissingFieldDefaults(b: ContextBlock)
    ensures b.chunkId.None? ==> RenderBlock(b)[..10] == "[unknown] "
    ensures b.text.None? ==> RenderBlock(b) == "[" + ChunkIdOf(b) + "] "
  {
  }

  /** One rendered line per block, in block order. */
  function RenderAll(blocks: seq<ContextBlock>): (lines: seq<string>)
    ensures |lines| == |blocks|
    ensures forall i :: 0 <= i < |blocks| ==> lines[i] == RenderBlock(blocks[i])
  {
    seq(|blocks|, i requires 0 <= i < |blocks| => RenderBlock(blocks[i]))
  }

  /** The context section: the rendered lines joined with a blank line. */
  function RenderContext(blocks: seq<ContextBlock>): (context: string)
    ensures |blocks| == 0 ==> context == ""
    ensures |blocks| == 1 ==> context == RenderBlock(blocks[0])
    ensures |blocks| > 0 ==>
              |RenderBlock(blocks[0])| <= |context| && context[..|RenderBlock(blocks[0])|] == RenderBlock(blocks[0])
  {
    Join(RenderAll(blocks), BlockSeparator)
  }

  /** Block `i`'s line sits in the context after the earlier blocks' lines and before the later ones. */
  lemma ContextLineAt(blocks: seq<ContextBlock>, i: nat)
    requires i < |blocks|
    ensures RenderContext(blocks)
      == JoinedBefore(RenderAll(blocks), BlockSeparator, i) + RenderBlock(blocks[i])
       + JoinedAfter(RenderAll(blocks), BlockSeparator, i)
  {
    JoinAt(RenderAll(blocks), BlockSeparator, i);
  }

  /** Every block's line is kept whole, with exactly one separator between neighbours: no truncation. */
  lemma ContextLength(blocks: seq<ContextBlock>)
    requires |blocks| > 0
    ensures |RenderContext(blocks)| == TotalLength(RenderAll(blocks)) + 2 * (|blocks| - 1)
  {
    JoinLength(RenderAll(blocks), BlockSeparator);
  }

  /** Adding blocks appends their lines after a blank line; the earlier context is unchanged. */
  lemma ContextAppend(a: seq<ContextBlock>, b: seq<ContextBlock>)
    requires |a| > 0 && |b| > 0
    ensures RenderContext(a + b) == RenderContext(a) + BlockSeparator + RenderContext(b)
  {
    assert RenderAll(a + b) == RenderAll(a) + RenderAll(b);
    JoinAppend(RenderAll(a), RenderAll(b), BlockSeparator);
  }

  /** The fixed system instruction. */
  const SystemPrompt: string :=
    "You are a helpful AI assistant for customer support that answers questions based on provided context.\n\n"
    + "IMPORTANT RULES:\n"
    + "1. For questions about policies, returns, shipping, sizing, or support: Answer ONLY using the provided context and include citations\n"
    + "2. For general greetings or casual conversation: You can respond naturally and friendly\n"
    + "3. For questions outside your knowledge base: Politely redirect to relevant policies or suggest contacting support\n"
    + "4. Always include citations [chunk_id] when using context information\n"
    + "5. Be concise but comprehensive\n"
    + "6. Maintain a helpful, professional tone"

  const ContextHeader: string := "Context:\n"
  const QuestionLabel: string := "Question: "
  const AnswerInstruction: string :=
    "Please provide an answer based on the context above, including appropriate citations."

  /** The user-turn message: context first, a blank line, the question, a blank line, the instruction. */
  function UserPrompt(query: string, context: string): (p: string)
    ensures |p| == |ContextHeader| + |context| + 2 + |QuestionLabel| + |query| + 2 + |AnswerInstruction|
    ensures p[..|ContextHeader| + |context|] == ContextHeader + context
    ensures p[|ContextHeader| + |context|..|ContextHeader| + |context| + 2] == "\n\n"
    ensures var q := |ContextHeader| + |context| + 2;
      p[q..q + |QuestionLabel| + |query|] == QuestionLabel + query
    ensures p[|p| - |AnswerInstruction| - 2..|p| - |AnswerInstruction|] == "\n\n"
    ensures p[|p| - |AnswerInstruction|..] == AnswerInstruction
  {
    ContextHeader + context + "\n\n" + QuestionLabel + query + "\n\n" + AnswerInstruction
  }

  /** The two-block example: the context is exactly `[a] T1\n\n[b] T2` and the prompt carries `Question: Q`. */
  lemma TwoBlockExample()
    ensures var blocks := [ContextBlock(Some("a"), Some("T1")), ContextBlock(Some("b"), Some("T2"))];
      RenderContext(blocks) == "[a] T1\n\n[b] T2"
      && var q := |ContextHeader| + |"[a] T1\n\n[b] T2"| + 2;
         UserPrompt("Q", RenderContext(blocks))[q..q + |"Question: Q"|] == "Question: Q"
  {
    var blocks := [ContextBlock(Some("a"), Some("T1")), ContextBlock(Some("b"), Some("T2"))];
    assert RenderBlock(blocks[0]) == "[a] T1";
    assert RenderBlock(blocks[1]) == "[b] T2";
    assert RenderAll(blocks) == ["[a] T1", "[b] T2"];
  }
}
