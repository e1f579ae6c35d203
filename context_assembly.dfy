/**
 * `build_context_from_sources` (rag_pipeline.py): every source with a URL becomes one
 * labelled context block and one sidebar record; the blocks are joined into the context
 * handed to the completion call and a bounded preview of it.
 * The page fetch is a parameter `fetch: url -> text` ("" when the fetch failed), and so is
 * `urlparse`, as in TextUtils.ExtractDomain.
 */
module ContextAssembly {
  import opened Wrappers
  import opened TextUtils
  import PySeq

  /** A search source; JSON `null` and a missing key are both `None`. */
  datatype Source = Source(title: Option<string>, url: Option<string>, snippet: Option<string>)

  datatype SidebarSource = SidebarSource(title: string, url: string, snippet: string, meta: string)

  datatype ContextInfo = ContextInfo(context: string, contextPreview: string, sidebarSources: seq<SidebarSource>)

  const BodyLimit := 2000
  const PreviewLimit := 4000
  const SidebarSnippetLimit := 260
  const Divider := "------------------------"

  /** Python's `value or default` for an optional string. */
  function OrElse(o: Option<string>, default: string): string
  {
    if o.Some? && o.value != "" then o.value else default
  }

  /** `src.get("url")`, with a missing key or `null` read as "". */
  function Url(src: Source): string
  {
    OrElse(src.url, "")
  }

  /** `if not url: continue` lets a source through only when its url is a non-empty string. */
  predicate HasUrl(src: Source)
  {
    Url(src) != ""
  }

  /** Original 0-based positions of the sources that are kept, in input order. */
  function Kept(sources: seq<Source>): seq<nat>
  {
    PySeq.Positions(sources, HasUrl, |sources|)
  }

  function Label(idx: nat): string
  {
    "S" + NatToString(idx)
  }

  /** The block title: the source's title, or "Source {idx}". */
  function Title(src: Source, idx: nat): string
  {
    OrElse(src.title, "Source " + NatToString(idx))
  }

  /** The fetched page text, else the snippet, cut to the per-source bound. */
  function Body(src: Source, fetch: string -> string): (r: string)
    ensures |r| <= BodyLimit
  {
    var fetched := fetch(Url(src));
    Truncate(if fetched != "" then fetched else OrElse(src.snippet, ""), BodyLimit)
  }

  /** The block for the source at 1-based input position `idx`. */
  function Block(src: Source, idx: nat, fetch: string -> string): string
  {
    "[" + Label(idx) + "] " + Title(src, idx) + "\nURL: " + Url(src) + "\n\n"
      + Body(src, fetch) + "\n" + Divider
  }

  function Sidebar(src: Source, idx: nat, fetch: string -> string, urlparse: string -> Option<string>): (r: SidebarSource)
    ensures |r.snippet| <= SidebarSnippetLimit
  {
    var snippet := OrElse(src.snippet, "");
    SidebarSource(
      Title(src, idx),
      Url(src),
      Truncate(if snippet != "" then snippet else Body(src, fetch), SidebarSnippetLimit),
      ExtractDomain(Url(src), urlparse))
  }

  /**
   * The context blocks the loop has built after reading the first `n` sources: one per
   * source with a url, labelled by its 1-based position in the whole input.
   */
  function ContextBlocks(sources: seq<Source>, n: nat, fetch: string -> string): seq<string>
    requires n <= |sources|
  {
    PySeq.KeptMap(sources, HasUrl, (src, idx) => Block(src, idx, fetch), n)
  }

  /** The sidebar records the loop has built after reading the first `n` sources. */
  function SidebarSources(sources: seq<Source>, n: nat, fetch: string -> string, urlparse: string -> Option<string>): seq<SidebarSource>
    requires n <= |sources|
  {
    PySeq.KeptMap(sources, HasUrl, (src, idx) => Sidebar(src, idx, fetch, urlparse), n)
  }

  /** The loop of `build_context_from_sources`. */
  method BuildContextFromSources(sources: seq<Source>, fetch: string -> string, urlparse: string -> Option<string>)
    returns (info: ContextInfo)
    ensures info.context == Join("\n\n", ContextBlocks(sources, |sources|, fetch))
    ensures info.contextPreview == Truncate(info.context, PreviewLimit)
    ensures |info.contextPreview| <= PreviewLimit
    ensures info.sidebarSources == SidebarSources(sources, |sources|, fetch, urlparse)
  {
    var blocks: seq<string> := [];
    var sidebar: seq<SidebarSource> := [];
    for i := 0 to |sources|
      invariant blocks == ContextBlocks(sources, i, fetch)
      invariant sidebar == SidebarSources(sources, i, fetch, urlparse)
    {
      var src := sources[i];
      var idx := i + 1;
      var url := src.url;
      NextSource(sources, i, fetch, urlparse);
      if !(url.Some? && url.value != "") {
        continue;
      }
      var title := OrElse(src.title, "Source " + NatToString(idx));
      var snippet := OrElse(src.snippet, "");
      var text := fetch(url.value);
      if text == "" {
        text := snippet;
      }
      text := Truncate(text, BodyLimit);
      var labelText := "S" + NatToString(idx);
      var block := "[" + labelText + "] " + title + "\nURL: " + url.value + "\n\n" + text + "\n" + Divider;
      var entry := SidebarSource(title, url.value, Truncate(if snippet != "" then snippet else text, SidebarSnippetLimit), ExtractDomain(url.value, urlparse));
      assert block == Block(src, idx, fetch) && entry == Sidebar(src, idx, fetch, urlparse) by {
        assert text == Body(src, fetch);
      }
      blocks := blocks + [block];
      sidebar := sidebar + [entry];
    }
    var combined := Join("\n\n", blocks);
    info := ContextInfo(combined, Truncate(combined, PreviewLimit), sidebar);
  }

  /** Reading one more source adds its block and its sidebar record exactly when it has a url. */
  lemma NextSource(sources: seq<Source>, i: nat, fetch: string -> string, urlparse: string -> Option<string>)
    requires i < |sources|
    ensures HasUrl(sources[i]) ==>
      ContextBlocks(sources, i + 1, fetch) == ContextBlocks(sources, i, fetch) + [Block(sources[i], i + 1, fetch)]
    ensures HasUrl(sources[i]) ==>
      SidebarSources(sources, i + 1, fetch, urlparse)
        == SidebarSources(sources, i, fetch, urlparse) + [Sidebar(sources[i], i + 1, fetch, urlparse)]
    ensures !HasUrl(sources[i]) ==> ContextBlocks(sources, i + 1, fetch) == ContextBlocks(sources, i, fetch)
    ensures !HasUrl(sources[i]) ==>
      SidebarSources(sources, i + 1, fetch, urlparse) == SidebarSources(sources, i, fetch, urlparse)
  {
  }

  /**
   * The j-th block comes from the j-th source that has a url and is labelled with that
   * source's 1-based position in the whole input: one block per kept source.
   */
  lemma BlocksFollowKept(sources: seq<Source>, fetch: string -> string)
    ensures var kept := Kept(sources);
      && |ContextBlocks(sources, |sources|, fetch)| == |kept|
      && forall j :: 0 <= j < |kept| ==>
           ContextBlocks(sources, |sources|, fetch)[j] == Block(sources[kept[j]], kept[j] + 1, fetch)
  {
    PySeq.KeptMapFollowsPositions(sources, HasUrl, (src, idx) => Block(src, idx, fetch), |sources|);
  }

  /** The j-th sidebar record likewise describes the j-th source that has a url. */
  lemma SidebarFollowsKept(sources: seq<Source>, fetch: string -> string, urlparse: string -> Option<string>)
    ensures var kept := Kept(sources);
      && |SidebarSources(sources, |sources|, fetch, urlparse)| == |kept|
      && forall j :: 0 <= j < |kept| ==>
           SidebarSources(sources, |sources|, fetch, urlparse)[j] == Sidebar(sources[kept[j]], kept[j] + 1, fetch, urlparse)
  {
    PySeq.KeptMapFollowsPositions(sources, HasUrl, (src, idx) => Sidebar(src, idx, fetch, urlparse), |sources|);
  }

  /**
   * A source is kept exactly when it has a non-empty url, and the kept sources stay in
   * input order.
   */
  lemma KeptExactlyThoseWithUrl(sources: seq<Source>)
    ensures forall i :: 0 <= i < |sources| ==> (i in Kept(sources) <==> HasUrl(sources[i]))
    ensures forall j, j' :: 0 <= j < j' < |Kept(sources)| ==> Kept(sources)[j] < Kept(sources)[j']
  {
    forall i | 0 <= i < |sources| && HasUrl(sources[i])
      ensures i in Kept(sources)
    {
      PySeq.PositionsComplete(sources, HasUrl, |sources|, i);
    }
  }

  /**
   * The j-th block opens with "[S{k}] " and the title of the j-th kept source, where k is
   * that source's 1-based position in the whole input.
   */
  lemma BlockLabel(sources: seq<Source>, fetch: string -> string, j: nat)
    requires j < |Kept(sources)|
    ensures |ContextBlocks(sources, |sources|, fetch)| == |Kept(sources)|
    ensures var k := Kept(sources)[j];
      StartsWith(ContextBlocks(sources, |sources|, fetch)[j], "[" + Label(k + 1) + "] " + Title(sources[k], k + 1))
  {
    BlocksFollowKept(sources, fetch);
    var k := Kept(sources)[j];
    BlockHead(sources[k], k + 1, fetch);
  }

  /** Every block opens with its bracketed label and its title. */
  lemma BlockHead(src: Source, idx: nat, fetch: string -> string)
    ensures StartsWith(Block(src, idx, fetch), "[" + Label(idx) + "] " + Title(src, idx))
  {
  }

  /**
   * After its head, a block carries the source's url on a line of its own followed by a
   * blank line, and it ends with the body and the divider.
   */
  lemma BlockUrlLine(src: Source, idx: nat, fetch: string -> string)
    ensures StartsWith(Block(src, idx, fetch),
      "[" + Label(idx) + "] " + Title(src, idx) + "\nURL: " + Url(src) + "\n\n")
    ensures EndsWith(Block(src, idx, fetch), Body(src, fetch) + "\n" + Divider)
  {
    var h := "[" + Label(idx) + "] " + Title(src, idx) + "\nURL: " + Url(src) + "\n\n";
    var t := Body(src, fetch) + "\n" + Divider;
    assert Block(src, idx, fetch) == h + t;
    ConcatStartsWith(h, t);
    ConcatEndsWith(h, t);
  }

  /**
   * The j-th sidebar record shows the title and url of the j-th kept source, the url's
   * domain, and a snippet of at most 260 characters.
   */
  lemma SidebarAgrees(sources: seq<Source>, fetch: string -> string, urlparse: string -> Option<string>, j: nat)
    requires j < |Kept(sources)|
    ensures |SidebarSources(sources, |sources|, fetch, urlparse)| == |Kept(sources)|
    ensures var k := Kept(sources)[j]; var src := sources[k];
      var entry := SidebarSources(sources, |sources|, fetch, urlparse)[j];
      && HasUrl(src)
      && entry.title == Title(src, k + 1)
      && entry.url == Url(src)
      && entry.meta == ExtractDomain(Url(src), urlparse)
      && entry.snippet == Truncate(OrElse(src.snippet, Body(src, fetch)), SidebarSnippetLimit)
      && |entry.snippet| <= SidebarSnippetLimit
  {
    SidebarFollowsKept(sources, fetch, urlparse);
  }

  /** Different blocks carry different labels. */
  lemma LabelsDistinct(sources: seq<Source>, j: nat, j': nat)
    requires j < j' < |Kept(sources)|
    ensures Label(Kept(sources)[j] + 1) != Label(Kept(sources)[j'] + 1)
  {
    var a, b := Kept(sources)[j] + 1, Kept(sources)[j'] + 1;
    if Label(a) == Label(b) {
      assert Label(a)[1..] == NatToString(a);
      assert Label(b)[1..] == NatToString(b);
      NatToStringInjective(a, b);
    }
  }

  /**
   * The block body is the fetched page text when the fetch gave any, and otherwise the
   * snippet (or nothing), cut to 2000 characters.
   */
  lemma BodyChoice(src: Source, fetch: string -> string)
    ensures fetch(Url(src)) != "" ==> Body(src, fetch) == Truncate(fetch(Url(src)), BodyLimit)
    ensures fetch(Url(src)) == "" ==> Body(src, fetch) == Truncate(OrElse(src.snippet, ""), BodyLimit)
    ensures |Body(src, fetch)| <= BodyLimit
  {
  }

  /**
   * Skipping a url-less source does not renumber the rest: after one skipped source the
   * only block is labelled S2 and its default title is "Source 2".
   */
  lemma SkippedSourceKeepsNumbering(fetch: string -> string)
    ensures var sources := [Source(None, None, None), Source(None, Some("u"), None)];
      && |ContextBlocks(sources, 2, fetch)| == 1
      && StartsWith(ContextBlocks(sources, 2, fetch)[0], "[S2] Source 2")
  {
    var sources := [Source(None, None, None), Source(None, Some("u"), None)];
    assert ContextBlocks(sources, 1, fetch) == [];
    assert ContextBlocks(sources, 2, fetch) == [Block(sources[1], 2, fetch)];
    BlockHead(sources[1], 2, fetch);
    assert NatToString(2) == "2";
    assert Title(sources[1], 2) == "Source 2";
    assert "[" + Label(2) + "] " + Title(sources[1], 2) == "[S2] Source 2";
  }
}
