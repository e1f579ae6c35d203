# DevToolScope retrieval core, in Dafny

DevToolScope answers developer-tooling questions with web retrieval. It asks a search
API (Perplexity) for sources, fetches each source page, and builds a labelled context
from the page texts. It then asks a completion model (OpenAI) for a briefing grounded in
that context. This project models the deterministic parts of that pipeline and proves
properties of them. Every network, HTML and model call is abstracted away.

| Dafny module | file | models |
|---|---|---|
| `Wrappers` | wrappers.dfy | `Option` and `Result` |
| `PySeq` | pyseq.dfy | Python prefix slicing `s[:stop]`; the positions and outputs of a filtering `enumerate` loop |
| `TextUtils` | text_utils.dfy | `truncate_text`, `extract_domain`, `str.strip`, `str.join`, `f"{n}"` |
| `PageFetch` | page_fetch.dfy | the paragraph loop of `fetch_url_content` |
| `ContextAssembly` | context_assembly.dfy | `build_context_from_sources` |
| `WebSearch` | web_search.dfy | the response schema and the reply post-processing of `web_search` |
| `Briefing` | briefing.dfy | the search query, the no-sources guard, the stack suffix, the user message and the system prompt of `generate_tooling_briefing` |
| `Config` | config.dfy | `get_perplexity_api_key` and `validate_config` over an explicit environment map |

The three loops of the core are imperative methods, each proved against a
specification function:
- `PageFetch.AccumulateChunks`, the paragraph loop with its early `break`, is specified
  by `PageChunks`.
- `ContextAssembly.BuildContextFromSources`, the loop over the sources, is specified by
  `ContextBlocks` and `SidebarSources`.
- `WebSearch.PostProcess` builds the fallback list in a loop and reassigns the payload;
  it is proved equal to the function `SearchResult`.

The lemmas about the specification functions state what the code promises.
`Config.ValidateConfig` builds its `missing` list by appends, as the code does. The
string builders, the schema and the key lookup are functions.

Collaborators are parameters:
- `fetch: string -> string` is the page fetch. It returns "" on any failure.
- `urlparse: string -> Option<string>` is the URL parser. `None` means it raised;
  `Some(netloc)` is the parsed network location.
- `decode: string -> Option<Json>` is `json.loads`. `None` means a `JSONDecodeError`.
- The HTML parse is represented by its result: the sequence of paragraph texts.

Places where the code does something a reader might not expect:
- Block labels `S{idx}` and default titles `Source {idx}` number a source by its 1-based
  position in the whole input list (rag_pipeline.py:57,62,70). A skipped url-less source
  therefore leaves a gap in the labels (`ContextAssembly.SkippedSourceKeepsNumbering`).
- A truncated text ends with the ellipsis and is at most `max_chars` long. The kept part
  is right-stripped before the ellipsis is added, so the result can be shorter than
  `max_chars` (utils/text_utils.py:11; `TextUtils.TruncateCanFallShortOfBound`).
- With `max_chars = 0`, Python's `text[:-1]` keeps all but one character, so the bound
  does not hold (`TextUtils.TruncateZeroBoundOverflows`). Every call site passes 260, 2000,
  4000 or 6000.
- Some JSON replies that decode still make `web_search` raise:
  - a payload that is not an object (`parsed.get` raises AttributeError);
  - a final `sources` value that is null, a boolean, a number or an object (the slice
    raises: TypeError, or KeyError for an object on Python 3.12 and later).
  A string `sources` is sliced as a string. `WebSearch.ErrorsExactly` characterises both
  errors.

## Model

| member | source | states |
|---|---|---|
| PySeq.Prefix | utils/text_utils.py:11 | Python's `s[:stop]`: the result is a prefix of `s`; its length is `min(stop, len(s))` for `stop >= 0` and `max(0, len(s) + stop)` for negative `stop` |
| PySeq.Positions | rag_pipeline.py:57-60 | the indices a filtering loop acts on are below `n`, strictly increasing, and each points at an accepted element |
| PySeq.PositionsComplete | rag_pipeline.py:57-60 | no accepted element is skipped: every accepted index below `n` is among the positions |
| PySeq.KeptMap | rag_pipeline.py:57-85 | reference definition of what a filtering `enumerate(..., start=1)` append loop has produced after `n` elements; `PySeq.KeptMapFollowsPositions` states its properties |
| PySeq.KeptMapFollowsPositions | rag_pipeline.py:57-85 | the j-th output of a filtering `enumerate(..., start=1)` loop is built from the j-th accepted element and that element's 1-based position in the whole input; there is one output per accepted element |
| TextUtils.RStrip | utils/text_utils.py:11 | `str.rstrip()`: the result is a prefix of the input, does not end in whitespace, and only whitespace was removed |
| TextUtils.LStrip | rag_pipeline.py:149 | `str.lstrip()`: the result is a suffix of the input, does not start with whitespace, and only whitespace was removed |
| TextUtils.Strip | rag_pipeline.py:149 | `str.strip()`: no longer than its input, with neither leading nor trailing whitespace; `TextUtils.StripSlice` and `TextUtils.StripDropsOnlySpace` state which characters it keeps, and `TextUtils.StripEmptyIffBlank` says when it is empty |
| TextUtils.StripSlice | rag_pipeline.py:149 | `s.strip()` is the contiguous slice of `s` that starts where `s.lstrip()` starts |
| TextUtils.StripDropsOnlySpace | rag_pipeline.py:149 | every character of `s` before and after that slice is whitespace |
| TextUtils.StripEmptyIffBlank | rag_pipeline.py:149 | `s.strip()` is empty exactly when every character of `s` is whitespace |
| TextUtils.Truncate | utils/text_utils.py:5-11 | a text that fits is returned unchanged; otherwise the result ends with the ellipsis, and for `max_chars >= 1` it is at most `max_chars` long, its kept part is a prefix of the text with no trailing whitespace, and only whitespace was dropped before position `max_chars - 1` |
| TextUtils.TruncateIdempotent | utils/text_utils.py:9-11 | for `n >= 1`, truncating a truncated text again with the same bound changes nothing |
| TextUtils.TruncateStableUnderLargerBound | utils/text_utils.py:9-11 | for `1 <= n <= m`, truncating an `n`-truncated text to `m` changes nothing |
| TextUtils.TruncateCanFallShortOfBound | utils/text_utils.py:11 | `truncate_text("a  b", 3)` is `"a…"`, shorter than the bound, because of the right-strip |
| TextUtils.TruncateZeroBoundOverflows | utils/text_utils.py:11 | `truncate_text("ab", 0)` is `"a…"`, longer than the bound 0 |
| TextUtils.ExtractDomain | utils/text_utils.py:14-22 | never fails; the result is "" exactly when parsing raises or finds no netloc, and otherwise it is the netloc |
| TextUtils.NatToString | rag_pipeline.py:62-70 | `f"{n}"` is a non-empty string of decimal digits, one digit exactly when `n < 10`; `TextUtils.NatToStringValue` proves the digits denote `n` |
| TextUtils.NatToStringValue | rag_pipeline.py:62-70 | the digits of `f"{n}"`, read most significant first, denote `n`, and there is no leading zero unless `n` is 0 |
| TextUtils.Join | rag_pipeline.py:45 | reference definition of `sep.join(xs)`, used for the page text, the context and the config message; `Config.ValidateConfig` states the joined message |
| TextUtils.SumLen | rag_pipeline.py:42 | reference definition of `sum(len(x) for x in xs)`; `PageFetch.EarlyStopOverflows` and `PageFetch.ChunksBeforeLastFit` state the budget facts built on it |
| TextUtils.NatToStringInjective | rag_pipeline.py:70 | different numbers print differently |
| PageFetch.NonEmpty | rag_pipeline.py:39-41 | the kept paragraph texts are all non-empty and no more than the paragraphs read |
| PageFetch.NonEmptyKeepsOrder | rag_pipeline.py:38-41 | the kept texts are exactly the non-empty paragraph texts, in document order |
| PageFetch.Fits | rag_pipeline.py:42-43 | reference definition of the running-sum check passing after the first `j` paragraphs; `PageFetch.StopIndex` and `PageFetch.ChunksBeforeLastFit` state its properties |
| PageFetch.StopsAt | rag_pipeline.py:38-43 | reference definition of where the loop stops: every earlier check passed, and the check at the stop failed unless all paragraphs were read; `PageFetch.StopsAtUnique`, `PageFetch.StopIndex` and `PageFetch.EarlyStopOverflows` state its properties |
| PageFetch.StopsAtUnique | rag_pipeline.py:42-43 | the loop has a single stopping point |
| PageFetch.StopIndex | rag_pipeline.py:38-43 | the number of paragraphs read is the stopping point: every earlier running-sum check passed, and unless every paragraph was read, the last check failed |
| PageFetch.StopFrom | rag_pipeline.py:38-43 | continuing from a point where every check so far has passed reaches the stopping point |
| PageFetch.EarlyStopOverflows | rag_pipeline.py:42-43 | when the loop breaks before the last paragraph, the collected text is over the budget |
| PageFetch.ChunksBeforeLastFit | rag_pipeline.py:42-43 | for a non-negative budget, every chunk but the last one fits within it |
| PageFetch.PageChunks | rag_pipeline.py:38-43 | reference definition of the chunks the loop collects: the non-empty texts among the paragraphs read up to the stopping point; `PageFetch.NonEmptyKeepsOrder`, `PageFetch.StopIndex`, `PageFetch.EarlyStopOverflows` and `PageFetch.ChunksBeforeLastFit` state its properties |
| PageFetch.AccumulateChunks | rag_pipeline.py:36-43 | the loop with its `break` collects exactly the specified chunks |
| PageFetch.FetchUrlContent | rag_pipeline.py:23-46 | "" when the request failed, otherwise the chunks joined by blank lines and truncated to the budget; for a positive budget the result is at most `max_chars` long |
| ContextAssembly.Url | rag_pipeline.py:58 | reference definition of `src.get("url")`, a missing key or null read as ""; `ContextAssembly.BlockUrlLine` states that every block carries it on its `URL:` line, and `ContextAssembly.SidebarAgrees` that every sidebar record shows it |
| ContextAssembly.HasUrl | rag_pipeline.py:58-60 | reference definition of the `if not url: continue` filter; `ContextAssembly.KeptExactlyThoseWithUrl` states which sources it keeps |
| ContextAssembly.NextSource | rag_pipeline.py:57-85 | reading one more source appends its block and its sidebar record exactly when it has a url, and otherwise changes neither |
| ContextAssembly.Label | rag_pipeline.py:70 | reference definition of the label `S{idx}`; `ContextAssembly.LabelsDistinct` and `TextUtils.NatToStringValue` state its properties |
| ContextAssembly.Title | rag_pipeline.py:62 | reference definition of the title, or `Source {idx}` when it is missing or empty; `ContextAssembly.SkippedSourceKeepsNumbering` shows the default |
| ContextAssembly.Block | rag_pipeline.py:70-75 | reference definition of one context block; `ContextAssembly.BlockHead` and `ContextAssembly.BlockUrlLine` state its layout, and `ContextAssembly.BodyChoice` states which text its body holds |
| ContextAssembly.ContextBlocks | rag_pipeline.py:57-76 | reference definition of the blocks built after the first `n` sources; `ContextAssembly.BlocksFollowKept` and `ContextAssembly.BlockLabel` state its properties |
| ContextAssembly.SidebarSources | rag_pipeline.py:57-85 | reference definition of the sidebar records built after the first `n` sources; `ContextAssembly.SidebarFollowsKept` and `ContextAssembly.SidebarAgrees` state its properties |
| ContextAssembly.Body | rag_pipeline.py:64-68 | a block body is at most 2000 characters |
| ContextAssembly.BodyChoice | rag_pipeline.py:64-68 | the body is the truncated fetched text when the fetch gave any, and otherwise the truncated snippet (or "") |
| ContextAssembly.Sidebar | rag_pipeline.py:78-85 | a sidebar snippet is at most 260 characters |
| ContextAssembly.BuildContextFromSources | rag_pipeline.py:49-94 | the context is the blocks of the sources with a url, joined by blank lines; the preview is the context truncated to 4000 (so at most 4000 long); the sidebar holds one record per source with a url |
| ContextAssembly.BlocksFollowKept | rag_pipeline.py:57-76 | one block per source with a url, in input order; the j-th block is the block of the j-th such source, numbered by its position in the whole input |
| ContextAssembly.SidebarFollowsKept | rag_pipeline.py:57-85 | one sidebar record per source with a url, in input order, numbered as the blocks are |
| ContextAssembly.KeptExactlyThoseWithUrl | rag_pipeline.py:57-60 | a source is kept exactly when its url is present and non-empty, and kept sources stay in input order |
| ContextAssembly.BlockHead | rag_pipeline.py:70-75 | every block opens with `[S{idx}] ` and its title |
| ContextAssembly.BlockUrlLine | rag_pipeline.py:71-75 | every block continues its head with `\nURL: {url}\n\n` and ends with its body, a newline and the divider |
| ContextAssembly.BlockLabel | rag_pipeline.py:57-75 | the j-th block opens with `[S{k}] ` and the title of the j-th kept source, where `k` is its 1-based position in the whole input |
| ContextAssembly.SidebarAgrees | rag_pipeline.py:78-85 | the j-th sidebar record carries the title and url of the j-th kept source, the snippet (or else the body) truncated to 260, and the domain of the url |
| ContextAssembly.LabelsDistinct | rag_pipeline.py:57-70 | different blocks carry different labels |
| ContextAssembly.SkippedSourceKeepsNumbering | rag_pipeline.py:57-70 | after a skipped url-less source, the only block opens with `[S2] Source 2` |
| WebSearch.ResponseSchema | web_search.py:15-45 | the declared schema requires `sources` at top level |
| WebSearch.SchemaRequiresUrlInEverySource | web_search.py:31-41 | the declared schema requires `url` in every source item |
| WebSearch.Truthy | web_search.py:116 | reference definition of Python truthiness for a decoded JSON value; `WebSearch.FallbackFromSearchResults`, `WebSearch.DecodedSourcesWin` and `Briefing.RequireSources` state the tests built on it |
| WebSearch.Parsed | web_search.py:108-113 | reference definition of the payload before the fallbacks: the decoded object, the raw text with no sources when decoding fails, or an error for a non-object; `WebSearch.UndecodableWithoutHits` and `WebSearch.ErrorsExactly` state its properties |
| WebSearch.UsesFallback | web_search.py:116 | reference definition of when the search hits replace the sources: the decoded sources are missing or falsy and there are hits; `WebSearch.FallbackFromSearchResults` and `WebSearch.DecodedSourcesWin` state its properties |
| WebSearch.FallbackSource | web_search.py:119-125 | reference definition of the record built from one hit; `WebSearch.FallbackFromSearchResults` states its use |
| WebSearch.SliceSources | web_search.py:128 | reference definition of `sources[:max_results]`, which fails unless `sources` is a list or a string; `WebSearch.SourcesBounded` and `WebSearch.ErrorsExactly` state its properties |
| WebSearch.SearchResult | web_search.py:108-130 | reference definition of what `web_search` returns or raises for a reply; `WebSearch.PostProcess` is proved equal to it and the lemmas below state its properties |
| WebSearch.PostProcess | web_search.py:108-130 | the post-processing steps, in code order, give exactly the specified result or error |
| WebSearch.SourcesBounded | web_search.py:128-130 | on success, and for `max_results >= 0` (the only call, rag_pipeline.py:152, passes the default 6), `sources` is a list (or string) of at most `max_results` entries |
| WebSearch.OnlySourcesChange | web_search.py:110-130 | only the `sources` key changes; every other key of the payload is returned unchanged |
| WebSearch.UndecodableWithoutHits | web_search.py:109-128 | a reply that does not decode, with no search hits, yields the raw text as summary and no sources |
| WebSearch.DecodedSourcesWin | web_search.py:116-128 | non-empty decoded sources win over the search hits, and are cut to `max_results` in order |
| WebSearch.FallbackFromSearchResults | web_search.py:116-128 | for `max_results >= 0` (the only call, rag_pipeline.py:152, passes the default 6), when the decoded sources are missing or falsy and there are hits, the sources are the first `max_results` hits in order, each with its title, its url and an empty snippet |
| WebSearch.ErrorsExactly | web_search.py:110-128 | it raises AttributeError exactly when the payload decodes to a non-object, and raises at the slice exactly when the final `sources` is neither a list nor a string |
| WebSearch.NullSourcesRaise | web_search.py:116-128 | `{"sources": null}` with no search hits raises |
| Briefing.ModeQuery | rag_pipeline.py:142-147 | reference definition of the mode-specific query; `Briefing.SearchQueryShape` states its properties |
| Briefing.SearchQuery | rag_pipeline.py:142-150 | reference definition of the search query; `Briefing.SearchQueryShape`, `Briefing.DiscoverQueryExample` and `Briefing.StackQueryExample` state its properties |
| Briefing.SearchQueryShape | rag_pipeline.py:142-150 | the query opens with the mode's prefix and the question, with the deep-dive form for any other mode; the stack clause with the stripped hint is appended exactly when the stripped hint is non-empty |
| Briefing.DiscoverQueryExample | rag_pipeline.py:142-143 | a Discover question with no stack hint gets the Discover prefix only |
| Briefing.StackQueryExample | rag_pipeline.py:149-150 | the hint "Python, FastAPI" ends the query after the stack clause |
| Briefing.RequireSources | rag_pipeline.py:153-157 | the briefing stops with "No web sources were returned by the search layer." exactly when `sources` is missing or falsy, and otherwise goes on with those sources |
| Briefing.UndecodableReplyStopsBriefing | rag_pipeline.py:152-157 | a search reply that is not JSON and has no hits stops the briefing before the completion call |
| Briefing.StackSuffix | rag_pipeline.py:170-176 | reference definition of the stack suffix; `Briefing.StackSuffixShape` states its properties |
| Briefing.UserMessage | rag_pipeline.py:178-184 | reference definition of the user message; `Briefing.UserMessageShape` and `Briefing.StackMessageExample` state its properties |
| Briefing.StackSuffixShape | rag_pipeline.py:170-176 | the stack suffix is empty exactly for a blank hint; otherwise it is the header, the stripped hint and the footer |
| Briefing.UserMessageShape | rag_pipeline.py:178-184 | the user message gives the question, then the context, and ends with the stack suffix |
| Briefing.StackMessageExample | rag_pipeline.py:170-184 | the hint "Python, FastAPI" reaches the end of the user message between the stack header and footer |
| Briefing.DepthText | rag_pipeline.py:98-102 | reference definition of the depth guidance, concise for "Concise" and deep otherwise; `Briefing.SystemPromptDepth` states its properties |
| Briefing.FocusSentence | rag_pipeline.py:106-108 | reference definition of the focus sentence naming the focus; `Briefing.SystemPromptFocus` states its properties |
| Briefing.FocusText | rag_pipeline.py:104-108 | reference definition of the focus text, empty for "Any"; `Briefing.SystemPromptFocus` states its properties |
| Briefing.SystemPrompt | rag_pipeline.py:97-123 | reference definition of the system prompt; `Briefing.SystemPromptFrame`, `Briefing.SystemPromptDepth` and `Briefing.SystemPromptFocus` state its properties |
| Briefing.SystemPromptFrame | rag_pipeline.py:110-123 | the system prompt opens with the grounding rules and ends with the five numbered sections |
| Briefing.SystemPromptDepth | rag_pipeline.py:98-114 | the prompt carries the concise guidance exactly when depth is "Concise", and the deep-dive guidance exactly when it is not |
| Briefing.SystemPromptFocus | rag_pipeline.py:104-115 | the focus sentence follows the depth guidance exactly when focus is not "Any" |
| Config.GetEnv | config.py:12-13 | reference definition of `get_env(name)` over the environment map; `Config.GetPerplexityApiKey` and `Config.ValidateConfig` state what is built on it |
| Config.IsSet | config.py:40-43 | reference definition of a key counting as configured, set and non-empty; `Config.GetPerplexityApiKey` and `Config.ValidateConfig` state their results in its terms |
| Config.GetPerplexityApiKey | config.py:25-31 | succeeds exactly when the key is set and non-empty, returning it unchanged; otherwise fails with the documented message |
| Config.ValidateConfig | config.py:34-47 | `(True, "")` exactly when both keys are set and non-empty; otherwise `False` and "Missing environment variables: " followed by the missing names, OpenAI's first, joined by ", " |
| Config.ValidatedConfigYieldsKey | config.py:25-47 | when the configuration validates, the key lookup returns the configured key |

## Left out

- The HTTP requests and their timeouts (rag_pipeline.py:24-32, web_search.py:63-106) are not modelled. A failed page fetch is `None` (or "" for `fetch`).
- The HTML parse (rag_pipeline.py:34-35) is given as its outcome: the paragraph texts.
- `json.loads` and `urlparse` are library code. They are the parameters `decode` and `urlparse`.
- The JSON model has integer numbers only. A float in the reply is not represented.
- The reply envelope assumes a string `content` and that each `search_results` entry is an object. A non-string content, or a non-object hit (which makes `item.get` raise), is not modelled.
- A `search_results` value that is truthy but not a list is not modelled.
- The log line on a decode failure (web_search.py:112) is not modelled.
- `lru_cache` on `fetch_url_content` (rag_pipeline.py:17) is left out. Caching does not change the returned text, since `fetch` is a function.
- The OpenAI client (config.py:16-22), the completion call and its answer (rag_pipeline.py:166,186-196) are left out. The Streamlit `session_state` side channel (rag_pipeline.py:199-201) and app.py are left out too.
- `load_dotenv` and `os.getenv` are left out: the environment is a map parameter.
- The conversion of the search reply's JSON sources into `ContextAssembly.Source` records is left out. Each record holds a title, a url and a snippet, with a missing key or `null` as `None`. A non-string title, url or snippet is not represented. A `sources` value that is a string, or a list entry that is not an object, makes `src.get` raise AttributeError at rag_pipeline.py:58; this is not modelled, and `Briefing.RequireSources` passes such a value on as it is.
- PageFetch.ChunksBeforeLastFit: stated for a non-negative budget only, since with a negative budget the first non-empty paragraph already exceeds it.
