/** The agent's fixed escalation line and the learned-knowledge block of its prompt. */
module Prompts {
  import opened Base
  import opened Text

  const EscalationOpening := "Let me check with my "
  const EscalationClosing := " and get back to you with the most accurate information. I'll text you the answer shortly. Can I confirm your phone number?"

  /** `get_escalation_message`: a fixed line telling the caller a supervisor will be consulted. */
  function EscalationMessage(): (m: string)
    ensures Contains(m, "supervisor")
  {
    ContainsInfix(EscalationOpening, "supervisor", EscalationClosing);
    EscalationOpening + "supervisor" + EscalationClosing
  }

  const LearnedHeader := "ADDITIONAL LEARNED INFORMATION:\n"

  /** At most this many learned entries go into the prompt. */
  const LearnedLimit := 5

  /** One entry's block; a missing key reads as the empty string. */
  function LearnedBlock(entry: map<string, string>): string {
    "Q: " + GetOrEmpty(entry, "question") + "\nA: " + GetOrEmpty(entry, "answer") + "\n"
  }

  function LearnedBlocks(entries: seq<map<string, string>>): (blocks: seq<string>)
    ensures |blocks| == |entries|
    ensures forall i :: 0 <= i < |entries| ==> blocks[i] == LearnedBlock(entries[i])
  {
    seq(|entries|, i requires 0 <= i < |entries| => LearnedBlock(entries[i]))
  }

  /** The text `get_knowledge_context_prompt` returns. */
  function KnowledgeContextPrompt(entries: seq<map<string, string>>): string {
    if entries == [] then ""
    else Join("\n", [LearnedHeader] + LearnedBlocks(SliceTo5(entries)))
  }

  function SliceTo5(entries: seq<map<string, string>>): (r: seq<map<string, string>>)
    ensures |r| == Min(LearnedLimit, |entries|) && r == entries[..|r|]
  {
    if |entries| <= LearnedLimit then entries else entries[..LearnedLimit]
  }

  /** `get_knowledge_context_prompt`: the header, then one block per entry for the first five, newline-joined. */
  method GetKnowledgeContextPrompt(entries: seq<map<string, string>>) returns (prompt: string)
    ensures prompt == KnowledgeContextPrompt(entries)
  {
    if entries == [] {
      return "";
    }
    var parts := [LearnedHeader];
    var n := Min(LearnedLimit, |entries|);
    for i := 0 to n
      invariant parts == [LearnedHeader] + LearnedBlocks(entries[..i])
    {
      parts := parts + [LearnedBlock(entries[i])];
      assert entries[..i + 1] == entries[..i] + [entries[i]];
    }
    assert entries[..n] == SliceTo5(entries);
    prompt := Join("\n", parts);
  }

  /** The prompt is empty exactly when there is nothing learned, and otherwise opens with the header. */
  lemma PromptEmptyIff(entries: seq<map<string, string>>)
    ensures KnowledgeContextPrompt(entries) == "" <==> entries == []
    ensures entries != [] ==> LearnedHeader <= KnowledgeContextPrompt(entries)
  {
    if entries != [] {
      var parts := [LearnedHeader] + LearnedBlocks(SliceTo5(entries));
      assert parts[0] == LearnedHeader;
      if |parts| > 1 {
        assert Join("\n", parts) == LearnedHeader + ("\n" + Join("\n", parts[1..]));
      }
    }
  }

  /** Each of the first five entries appears in the prompt as its Q/A block. */
  lemma PromptHoldsBlocks(entries: seq<map<string, string>>, i: nat)
    requires i < |entries| && i < LearnedLimit
    ensures Contains(KnowledgeContextPrompt(entries), LearnedBlock(entries[i]))
  {
    var parts := [LearnedHeader] + LearnedBlocks(SliceTo5(entries));
    assert parts[i + 1] == LearnedBlock(entries[i]);
    JoinHasPart("\n", parts, i + 1);
  }

  /** Entries past the fifth do not influence the prompt. */
  lemma PromptIgnoresTail(entries: seq<map<string, string>>, more: seq<map<string, string>>)
    requires |entries| >= LearnedLimit
    ensures KnowledgeContextPrompt(entries + more) == KnowledgeContextPrompt(entries)
  {
    assert SliceTo5(entries + more) == SliceTo5(entries);
  }

  /** An entry missing both keys still contributes a block, with both fields empty. */
  lemma MissingKeysRenderEmpty(entry: map<string, string>)
    requires "question" !in entry && "answer" !in entry
    ensures LearnedBlock(entry) == "Q: \nA: \n"
  {
  }
}
