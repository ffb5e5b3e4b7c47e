/**
 * The decisions the backend takes around the language model: whether an
 * answer needs a supervisor, how stored knowledge is rendered into the
 * prompt, and how a keyword reply is parsed. The model call itself is a
 * parameter: a completion maps the chat messages to the reply text, or to
 * `None` where the request or its parsing failed.
 */
module AIService {
  import opened Base
  import opened Text
  import opened Sorting

  datatype ChatMessage = ChatMessage(role: string, content: string)

  /** `generate_response`: the reply text, or `None` on failure. */
  type Completion = seq<ChatMessage> -> Option<string>

  const NeedsHelpToken := "NEEDS_HELP"
  const NoKnowledge := "No additional knowledge available."

  /** At most this many knowledge entries are put into the context. */
  const ContextLimit := 10

  /** One entry's context part; a missing key reads as the empty string. */
  function ContextPart(entry: map<string, string>): string {
    "Q: " + GetOrEmpty(entry, "question") + "\nA: " + GetOrEmpty(entry, "answer")
  }

  function ContextParts(entries: seq<map<string, string>>): (parts: seq<string>)
    ensures |parts| == |entries|
    ensures forall i :: 0 <= i < |entries| ==> parts[i] == ContextPart(entries[i])
  {
    seq(|entries|, i requires 0 <= i < |entries| => ContextPart(entries[i]))
  }

  /** The text `_build_knowledge_context` returns. */
  function KnowledgeContext(entries: seq<map<string, string>>): string {
    if entries == [] then NoKnowledge
    else Join("\n\n", ContextParts(SliceTo(entries, ContextLimit)))
  }

  /** `_build_knowledge_context`: the first ten entries as Q/A pairs separated by blank lines. */
  method BuildKnowledgeContext(entries: seq<map<string, string>>) returns (context: string)
    ensures context == KnowledgeContext(entries)
  {
    if entries == [] {
      return NoKnowledge;
    }
    var parts: seq<string> := [];
    var n := Min(ContextLimit, |entries|);
    for i := 0 to n
      invariant parts == ContextParts(entries[..i])
    {
      parts := parts + [ContextPart(entries[i])];
    }
    assert entries[..n] == SliceTo(entries, ContextLimit);
    context := Join("\n\n", parts);
  }

  /** Each of the first ten entries appears in the context as its Q/A part. */
  lemma ContextHoldsParts(entries: seq<map<string, string>>, i: nat)
    requires i < |entries| && i < ContextLimit
    ensures Contains(KnowledgeContext(entries), ContextPart(entries[i]))
  {
    var parts := ContextParts(SliceTo(entries, ContextLimit));
    JoinHasPart("\n\n", parts, i);
  }

  /** Entries past the tenth do not influence the context. */
  lemma ContextIgnoresTail(entries: seq<map<string, string>>, more: seq<map<string, string>>)
    requires |entries| >= ContextLimit
    ensures KnowledgeContext(entries + more) == KnowledgeContext(entries)
  {
    assert SliceTo(entries + more, ContextLimit) == SliceTo(entries, ContextLimit);
  }

  /** A non-empty knowledge list never renders as the placeholder: its text opens with a question. */
  lemma ContextPlaceholderIff(entries: seq<map<string, string>>)
    ensures KnowledgeContext(entries) == NoKnowledge <==> entries == []
  {
    if entries != [] {
      var parts := ContextParts(SliceTo(entries, ContextLimit));
      var text := Join("\n\n", parts);
      assert parts[0][0] == 'Q';
      if |parts| > 1 {
        assert text == parts[0] + ("\n\n" + Join("\n\n", parts[1..]));
      }
      assert text[0] == 'Q';
      assert NoKnowledge[0] == 'N';
    }
  }

  const SystemPromptOpening := "You are an AI assistant for a salon. \nYou have the following knowledge:\n\n"
  const SystemPromptClosing := "\n\nIf you can confidently answer the question using your knowledge, provide the answer.\nIf you cannot answer confidently, respond with exactly: \"NEEDS_HELP\"\n"

  /** The system prompt of `check_if_needs_help`, with the knowledge context in its middle. */
  function SystemPrompt(context: string): (p: string)
    ensures Contains(p, context)
  {
    ContainsInfix(SystemPromptOpening, context, SystemPromptClosing);
    SystemPromptOpening + context + SystemPromptClosing
  }

  function NeedsHelpMessages(question: string, context: string): seq<ChatMessage> {
    [ChatMessage("system", SystemPrompt(context)), ChatMessage("user", question)]
  }

  /**
   * `check_if_needs_help`: asks the model with the knowledge in its prompt.
   * A reply holding the sentinel escalates with no answer; any other outcome,
   * a failed call included, is passed back as the answer.
   */
  method CheckIfNeedsHelp(question: string, knowledgeBase: seq<map<string, string>>, complete: Completion)
    returns (needsHelp: bool, answer: Option<string>)
    ensures var response := complete(NeedsHelpMessages(question, KnowledgeContext(knowledgeBase)));
            && (needsHelp <==> response.Some? && Contains(response.value, NeedsHelpToken))
            && (needsHelp ==> answer.None?)
            && (!needsHelp ==> answer == response)
  {
    var context := BuildKnowledgeContext(knowledgeBase);
    var response := complete(NeedsHelpMessages(question, context));
    if response.Some? && response.value != "" && Contains(response.value, NeedsHelpToken) {
      return true, None;
    }
    return false, response;
  }

  /** At most this many keywords are kept. */
  const KeywordLimit := 5

  function StripAll(pieces: seq<string>): (r: seq<string>)
    ensures |r| == |pieces|
    ensures forall i :: 0 <= i < |pieces| ==> r[i] == Strip(pieces[i])
  {
    seq(|pieces|, i requires 0 <= i < |pieces| => Strip(pieces[i]))
  }

  /** Stripping a comma-free piece cannot bring a comma in. */
  lemma StrippedPiecesLackComma(pieces: seq<string>)
    requires forall i :: 0 <= i < |pieces| ==> ',' !in pieces[i]
    ensures forall i :: 0 <= i < |pieces| ==> ',' !in Strip(pieces[i])
  {
    forall i | 0 <= i < |pieces|
      ensures ',' !in Strip(pieces[i])
    {
      var j :| SliceAt(pieces[i], Strip(pieces[i]), j);
      assert forall c :: c in Strip(pieces[i]) ==> c in pieces[i];
    }
  }

  /** The keyword list `extract_keywords` makes of a reply: comma pieces, stripped, at most five. */
  function ParseKeywords(response: Option<string>): (keywords: seq<string>)
    ensures |keywords| <= KeywordLimit
    ensures response.None? || response.value == "" ==> keywords == []
    ensures forall i :: 0 <= i < |keywords| ==> ',' !in keywords[i]
    ensures forall i :: 0 <= i < |keywords| ==> keywords[i] == [] || (!IsSpace(keywords[i][0]) && !IsSpace(keywords[i][|keywords[i]| - 1]))
  {
    if response.Some? && response.value != "" then
      var pieces := Split(response.value, ',');
      SplitPiecesLackSeparator(response.value, ',');
      StrippedPiecesLackComma(pieces);
      SliceTo(StripAll(pieces), KeywordLimit)
    else []
  }

  const KeywordInstruction := "Extract 3-5 keywords from the following text. Return only keywords separated by commas."

  function KeywordMessages(text: string): seq<ChatMessage> {
    [ChatMessage("system", KeywordInstruction), ChatMessage("user", text)]
  }

  /** `extract_keywords`: one completion, parsed. */
  function ExtractKeywords(text: string, complete: Completion): (keywords: seq<string>)
    ensures |keywords| <= KeywordLimit
    ensures complete(KeywordMessages(text)).None? ==> keywords == []
  {
    ParseKeywords(complete(KeywordMessages(text)))
  }

  /**
   * A reply that lists comma-free keywords separated by commas parses back to
   * the first five of them, each stripped of surrounding whitespace (so
   * "haircut, color, price" gives "haircut", "color" and "price").
   */
  lemma ParseKeywordsOfJoin(keywords: seq<string>)
    requires keywords != []
    requires forall i :: 0 <= i < |keywords| ==> ',' !in keywords[i]
    requires Join([','], keywords) != ""
    ensures ParseKeywords(Some(Join([','], keywords))) == SliceTo(StripAll(keywords), KeywordLimit)
  {
    var reply := Join([','], keywords);
    assert Split(reply, ',') == keywords by {
      SplitJoin(keywords, ',');
    }
  }
}
