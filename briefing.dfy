/**
 * The pure parts of `generate_tooling_briefing` and `_build_openai_system_prompt`
 * (rag_pipeline.py): the mode-specific search query, the "no sources" guard, the stack
 * suffix and user message, and the system prompt. The calls to the search API and to the
 * completion API are not modelled.
 */
module Briefing {
  import opened Wrappers
  import opened TextUtils
  import WebSearch

  const DiscoverMode := "Discover tools for a problem"
  const CompareMode := "Compare tools in a category"

  const DiscoverPrefix := "Developer productivity tools to help with: "
  const ComparePrefix := "Compare popular developer tools in this category: "
  const DeepDivePrefix := "Deep dive on developer tool: "
  const DeepDiveTail := " (use cases, pros/cons, ecosystem)"
  const StackClause := " for a stack that includes: "

  /** The query for a mode before any stack clause; modes other than the first two dive deep. */
  function ModeQuery(query: string, mode: string): string
  {
    if mode == DiscoverMode then DiscoverPrefix + query
    else if mode == CompareMode then ComparePrefix + query
    else DeepDivePrefix + query + DeepDiveTail
  }

  /** The search query sent to the search API for a question, a mode and a stack hint. */
  function SearchQuery(query: string, mode: string, stack: string): string
  {
    var searchQuery := ModeQuery(query, mode);
    if Strip(stack) != "" then searchQuery + StackClause + Strip(stack) else searchQuery
  }

  /**
   * The query opens with the mode's prefix and the question (the deep-dive form for any
   * mode but the first two), and ends with the stack clause exactly when the stripped
   * stack hint is not empty; a blank hint leaves the bare mode form.
   */
  lemma SearchQueryShape(query: string, mode: string, stack: string)
    ensures var r := SearchQuery(query, mode, stack);
      && (mode == DiscoverMode ==> StartsWith(r, DiscoverPrefix + query))
      && (mode == CompareMode ==> StartsWith(r, ComparePrefix + query))
      && (mode != DiscoverMode && mode != CompareMode ==> StartsWith(r, DeepDivePrefix + query + DeepDiveTail))
      && (Strip(stack) != "" ==> r == ModeQuery(query, mode) + StackClause + Strip(stack))
      && (Strip(stack) == "" ==> r == ModeQuery(query, mode))
  {
    // Regrouping the concatenation keeps this proof within budget on every solver seed.
    var base := ModeQuery(query, mode);
    if Strip(stack) != "" {
      ConcatStartsWith(base, StackClause + Strip(stack));
      assert base + StackClause + Strip(stack) == base + (StackClause + Strip(stack));
    } else {
      ConcatStartsWith(base, "");
      assert base + "" == base;
    }
  }

  /** A question in "Discover" mode with no stack hint is sent with the Discover prefix only. */
  lemma DiscoverQueryExample()
    ensures SearchQuery("debugging production issues in Python microservices", DiscoverMode, "")
      == DiscoverPrefix + "debugging production issues in Python microservices"
  {
    assert Strip("") == "";
  }

  /** The stack hint "Python, FastAPI" ends the query with the stack clause and the hint verbatim. */
  lemma StackQueryExample(query: string, mode: string)
    ensures EndsWith(SearchQuery(query, mode, "Python, FastAPI"), StackClause + "Python, FastAPI")
  {
    var stack := "Python, FastAPI";
    assert !IsSpace(stack[0]) && !IsSpace(stack[|stack| - 1]);
    assert LStrip(stack) == stack;
    assert Strip(stack) == stack;
    var base := ModeQuery(query, mode);
    ConcatEndsWith(base, StackClause + stack);
    assert base + StackClause + stack == base + (StackClause + stack);
  }

  datatype BriefingError = NoSources(message: string)

  const NoSourcesMessage := "No web sources were returned by the search layer."

  /** `research.get("sources", [])`, refused with a RuntimeError when it is falsy. */
  function RequireSources(research: map<string, WebSearch.Json>): (r: Result<WebSearch.Json, BriefingError>)
    ensures r.Err? <==> !("sources" in research && WebSearch.Truthy(research["sources"]))
    ensures r.Err? ==> r.error == NoSources(NoSourcesMessage)
    ensures r.Ok? ==> r.value == research["sources"]
  {
    var sources := if "sources" in research then research["sources"] else WebSearch.JArray([]);
    if !WebSearch.Truthy(sources) then Err(NoSources(NoSourcesMessage)) else Ok(sources)
  }

  /**
   * A reply that is not JSON and carries no search hits ends in the "no sources" error, so
   * the completion call is never reached.
   */
  lemma UndecodableReplyStopsBriefing(env: WebSearch.Envelope, decode: string -> Option<WebSearch.Json>, maxResults: int)
    requires decode(env.content).None?
    requires env.searchResults.None? || env.searchResults.value == []
    ensures WebSearch.SearchResult(env, decode, maxResults).Ok?
    ensures RequireSources(WebSearch.SearchResult(env, decode, maxResults).value).Err?
  {
    WebSearch.UndecodableWithoutHits(env, decode, maxResults);
  }

  const StackHeader := "\n\nThe user also described their tech stack as:\n"
  const StackFooter := "\nTailor recommendations and caveats to this stack where relevant."

  /** The tailoring paragraph added to the user message when a stack hint is given. */
  function StackSuffix(stack: string): string
  {
    if Strip(stack) != "" then StackHeader + Strip(stack) + StackFooter else ""
  }

  /** The user message: the question, the assembled context and the stack suffix. */
  function UserMessage(query: string, context: string, stack: string): string
  {
    "User question:\n" + query + "\n\nWeb research context:\n" + context + "\n" + StackSuffix(stack)
  }

  /**
   * The stack suffix is empty exactly for a blank hint; otherwise it carries the stripped
   * hint between its header and footer.
   */
  lemma StackSuffixShape(stack: string)
    ensures StackSuffix(stack) == "" <==> Strip(stack) == ""
    ensures Strip(stack) != "" ==>
      var r := StackSuffix(stack);
      && StartsWith(r, StackHeader) && EndsWith(r, StackFooter)
      && |StackHeader| + |StackFooter| <= |r|
      && r[|StackHeader|..|r| - |StackFooter|] == Strip(stack)
  {
    if Strip(stack) != "" {
      var h, m, f := StackHeader, Strip(stack), StackFooter;
      ConcatStartsWith(h, m + f);
      assert h + m + f == h + (m + f);
      ConcatEndsWith(h + m, f);
      assert (h + m + f)[|h|..|h + m + f| - |f|] == m;
    }
  }

  /** The user message asks the question, gives the context, and ends with the stack suffix. */
  lemma UserMessageShape(query: string, context: string, stack: string)
    ensures var head := "User question:\n" + query + "\n\nWeb research context:\n" + context + "\n";
      && StartsWith(UserMessage(query, context, stack), head)
      && EndsWith(UserMessage(query, context, stack), StackSuffix(stack))
  {
    var head := "User question:\n" + query + "\n\nWeb research context:\n" + context + "\n";
    ConcatStartsWith(head, StackSuffix(stack));
    ConcatEndsWith(head, StackSuffix(stack));
  }

  /** A stack hint "Python, FastAPI" reaches the user message verbatim, inside the stack suffix. */
  lemma StackMessageExample(query: string, context: string)
    ensures EndsWith(UserMessage(query, context, "Python, FastAPI"),
                     StackHeader + "Python, FastAPI" + StackFooter)
  {
    var stack := "Python, FastAPI";
    assert !IsSpace(stack[0]) && !IsSpace(stack[|stack| - 1]);
    assert LStrip(stack) == stack;
    assert Strip(stack) == stack;
    UserMessageShape(query, context, stack);
  }

  const Preamble :=
    "You are DevToolScope, a senior engineer and dev productivity expert. "
    + "You answer based ONLY on the provided web context, labeled as [S1], [S2], etc. "
    + "If something is not supported by the context, say that it is not clearly covered. "
  // Each depth sentence below is the source's sentence character for character, written
  // as three literals so that its first differing character can be indexed.
  const Provide := "Provide a "
  const ConciseText := Provide + "concise" + ConciseRest
  const ConciseRest := " but actionable briefing, focusing on the most impactful tools."
  const DeepText := Provide + "deep" + DeepRest
  const DeepRest := ", structured briefing with nuanced analysis, trade-offs, and adoption tips."
  const Sections := "Structure" + SectionList
  const SectionList :=
    " your answer with the following sections:\n"
    + "1. Summary\n"
    + "2. Recommended tools & platforms\n"
    + "3. How to adopt them (step-by-step)\n"
    + "4. Trade-offs & caveats\n"
    + "5. Confidence & limitations\n\n"
    + "When you mention a specific tool, reference supporting sources in brackets like [S1], [S2]."

  function DepthText(depth: string): string
  {
    if depth == "Concise" then ConciseText else DeepText
  }

  const FocusHead := " Prioritize tools and practices related to "

  function FocusSentence(focus: string): string
  {
    FocusHead + focus + " when they appear in the context."
  }

  function FocusText(focus: string): string
  {
    if focus != "Any" then FocusSentence(focus) else ""
  }

  /** `_build_openai_system_prompt(depth, focus)`. */
  function SystemPrompt(depth: string, focus: string): string
  {
    Preamble + DepthText(depth) + FocusText(focus) + " " + Sections
  }

  /** The prompt opens with the grounding rules and always ends with the five numbered sections. */
  lemma SystemPromptFrame(depth: string, focus: string)
    ensures StartsWith(SystemPrompt(depth, focus), Preamble)
    ensures EndsWith(SystemPrompt(depth, focus), Sections)
  {
    var d, f := DepthText(depth), FocusText(focus);
    ConcatEndsWith(Preamble + d + f + " ", Sections);
    ConcatStartsWith(Preamble + d + f + " ", Sections);
    ConcatStartsWith(Preamble + d + f, " ");
    ConcatStartsWith(Preamble + d, f);
    ConcatStartsWith(Preamble, d);
    StartsWithTrans(Preamble + d + f + " " + Sections, Preamble + d + f + " ", Preamble + d + f);
    StartsWithTrans(Preamble + d + f + " " + Sections, Preamble + d + f, Preamble + d);
    StartsWithTrans(Preamble + d + f + " " + Sections, Preamble + d, Preamble);
  }

  /** The prompt gives the concise guidance exactly when depth is "Concise", and the deep-dive guidance otherwise. */
  lemma SystemPromptDepth(depth: string, focus: string)
    ensures StartsWith(SystemPrompt(depth, focus), Preamble + ConciseText) <==> depth == "Concise"
    ensures StartsWith(SystemPrompt(depth, focus), Preamble + DeepText) <==> depth != "Concise"
  {
    var tail := FocusText(focus) + " " + Sections;
    RegroupTail(Preamble, DepthText(depth), FocusText(focus), " ", Sections);
    FirstAfter(Provide, "concise", ConciseRest);
    FirstAfter(Provide, "deep", DeepRest);
    EitherPrefix(Preamble, ConciseText, DeepText, tail, |Provide|, depth == "Concise");
  }

  lemma RegroupTail(a: string, b: string, c: string, d: string, e: string)
    ensures a + b + c + d + e == a + b + (c + d + e)
  {
  }

  lemma FirstAfter(a: string, b: string, c: string)
    requires |b| >= 1
    ensures (a + b + c)[|a|] == b[0]
  {
  }

  /** Of two texts that differ at position k, a string built from one starts with that one only. */
  lemma EitherPrefix(pre: string, x: string, y: string, tail: string, k: nat, pickX: bool)
    requires k < |x| && k < |y| && x[k] != y[k]
    ensures StartsWith(pre + (if pickX then x else y) + tail, pre + x) <==> pickX
    ensures StartsWith(pre + (if pickX then x else y) + tail, pre + y) <==> !pickX
  {
    var chosen := if pickX then x else y;
    var r := pre + chosen + tail;
    ConcatStartsWith(pre + chosen, tail);
    assert r[|pre| + k] == chosen[k];
    assert (pre + x)[|pre| + k] == x[k];
    assert (pre + y)[|pre| + k] == y[k];
  }

  /** The focus sentence follows the depth guidance exactly when focus is not "Any". */
  lemma SystemPromptFocus(depth: string, focus: string)
    ensures StartsWith(SystemPrompt(depth, focus), Preamble + DepthText(depth) + FocusSentence(focus))
      <==> focus != "Any"
  {
    var head := Preamble + DepthText(depth);
    if focus == "Any" {
      NoFocusSentence(head, focus);
    } else {
      HasFocusSentence(head, FocusSentence(focus));
    }
  }

  lemma NoFocusSentence(head: string, focus: string)
    ensures !StartsWith(head + "" + " " + Sections, head + FocusSentence(focus))
  {
    var r := head + "" + " " + Sections;
    var q := head + FocusSentence(focus);
    var p := |head|;
    assert r == head + (" " + Sections);
    assert r[p + 1] == (" " + Sections)[1] == 'S';
    assert q == head + FocusSentence(focus);
    assert FocusHead[1] == 'P';
    assert q[p + 1] == FocusSentence(focus)[1] == FocusHead[1];
  }

  lemma HasFocusSentence(head: string, sentence: string)
    ensures StartsWith(head + sentence + " " + Sections, head + sentence)
  {
    ConcatStartsWith(head + sentence + " ", Sections);
    ConcatStartsWith(head + sentence, " ");
    StartsWithTrans(head + sentence + " " + Sections, head + sentence + " ", head + sentence);
  }
}
