/**
 * The text-accumulation part of `fetch_url_content` (rag_pipeline.py): paragraph texts
 * in document order are collected until their summed length passes the budget, then
 * joined with blank lines and truncated. The HTTP request and the HTML parser are not
 * modelled: their outcome is given as `None` (the request failed) or the paragraph texts.
 */
module PageFetch {
  import opened Wrappers
  import opened TextUtils
  import PySeq

  /** The paragraph texts that are kept: the non-empty ones, in order. */
  function NonEmpty(ps: seq<string>): (r: seq<string>)
    ensures |r| <= |ps|
    ensures forall i :: 0 <= i < |r| ==> r[i] != ""
  {
    if ps == [] then []
    else NonEmpty(ps[..|ps| - 1]) + (if ps[|ps| - 1] != "" then [ps[|ps| - 1]] else [])
  }

  predicate IsNonEmpty(p: string) { p != "" }

  /** The kept paragraphs are exactly the non-empty ones, in document order. */
  lemma {:induction false} NonEmptyKeepsOrder(ps: seq<string>, n: nat)
    requires n <= |ps|
    ensures var pos := PySeq.Positions(ps, IsNonEmpty, n);
      && |NonEmpty(ps[..n])| == |pos|
      && forall j :: 0 <= j < |pos| ==> NonEmpty(ps[..n])[j] == ps[pos[j]]
  {
    if n > 0 {
      NonEmptyKeepsOrder(ps, n - 1);
      assert ps[..n][..n - 1] == ps[..n - 1];
    }
  }

  /** After the first `j` paragraphs the kept text is still within the budget. */
  predicate Fits(ps: seq<string>, maxChars: int, j: nat)
    requires j <= |ps|
  {
    SumLen(NonEmpty(ps[..j])) <= maxChars
  }

  /**
   * The loop stops after paragraph `k`: every earlier check passed, and unless all
   * paragraphs were read, the check after paragraph `k` failed.
   */
  predicate StopsAt(ps: seq<string>, maxChars: int, k: nat)
  {
    && k <= |ps|
    && (forall j :: 1 <= j < k ==> Fits(ps, maxChars, j))
    && (k < |ps| ==> 1 <= k && !Fits(ps, maxChars, k))
  }

  /** There is one stopping point only. */
  lemma StopsAtUnique(ps: seq<string>, maxChars: int, k: nat, k': nat)
    requires StopsAt(ps, maxChars, k) && StopsAt(ps, maxChars, k')
    ensures k == k'
  {
  }

  function StopFrom(ps: seq<string>, maxChars: int, i: nat): (k: nat)
    requires i <= |ps|
    requires forall j :: 1 <= j <= i ==> Fits(ps, maxChars, j)
    ensures i <= k && StopsAt(ps, maxChars, k)
    decreases |ps| - i
  {
    if i == |ps| then i
    else if !Fits(ps, maxChars, i + 1) then i + 1
    else StopFrom(ps, maxChars, i + 1)
  }

  /** The number of paragraphs the loop reads. */
  function StopIndex(ps: seq<string>, maxChars: int): (k: nat)
    ensures StopsAt(ps, maxChars, k)
  {
    StopFrom(ps, maxChars, 0)
  }

  /** The chunks the loop collects. */
  function PageChunks(ps: seq<string>, maxChars: int): seq<string>
  {
    NonEmpty(ps[..StopIndex(ps, maxChars)])
  }

  /** When the loop stops early, the collected chunks are over the budget. */
  lemma EarlyStopOverflows(ps: seq<string>, maxChars: int)
    requires StopIndex(ps, maxChars) < |ps|
    ensures SumLen(PageChunks(ps, maxChars)) > maxChars
  {
  }

  /**
   * Every chunk but the last one fits in the budget: the chunk that pushes the sum over
   * is the last one collected.
   */
  lemma ChunksBeforeLastFit(ps: seq<string>, maxChars: int)
    requires maxChars >= 0
    requires PageChunks(ps, maxChars) != []
    ensures var c := PageChunks(ps, maxChars); SumLen(c[..|c| - 1]) <= maxChars
  {
    var k := StopIndex(ps, maxChars);
    var c := PageChunks(ps, maxChars);
    assert k >= 1;
    var prev := NonEmpty(ps[..k - 1]);
    assert ps[..k][..k - 1] == ps[..k - 1];
    assert SumLen(prev) <= maxChars by {
      if k - 1 >= 1 {
        assert Fits(ps, maxChars, k - 1);
      }
    }
    if ps[k - 1] != "" {
      assert c[..|c| - 1] == prev;
    } else {
      assert c == prev;
    }
  }

  /** The loop of `fetch_url_content` over the paragraph texts, with its early `break`. */
  method AccumulateChunks(ps: seq<string>, maxChars: int) returns (chunks: seq<string>)
    ensures chunks == PageChunks(ps, maxChars)
  {
    chunks := [];
    var i := 0;
    while i < |ps|
      invariant 0 <= i <= |ps|
      invariant chunks == NonEmpty(ps[..i])
      invariant forall j :: 1 <= j <= i ==> Fits(ps, maxChars, j)
    {
      var t := ps[i];
      if t != "" {
        chunks := chunks + [t];
      }
      assert ps[..i + 1][..i] == ps[..i];
      assert chunks == NonEmpty(ps[..i + 1]);
      if SumLen(chunks) > maxChars {
        StopsAtUnique(ps, maxChars, i + 1, StopIndex(ps, maxChars));
        return;
      }
      i := i + 1;
    }
    assert ps[..i] == ps;
    StopsAtUnique(ps, maxChars, i, StopIndex(ps, maxChars));
  }

  /**
   * `fetch_url_content(url, max_chars)` after the request: "" when it failed, otherwise
   * the collected chunks joined by blank lines and truncated to the budget.
   */
  method FetchUrlContent(response: Option<seq<string>>, maxChars: int) returns (text: string)
    ensures response.None? ==> text == ""
    ensures response.Some? ==>
      text == Truncate(Join("\n\n", PageChunks(response.value, maxChars)), maxChars)
    ensures maxChars >= 1 ==> |text| <= maxChars
  {
    if response.None? {
      return "";
    }
    var chunks := AccumulateChunks(response.value, maxChars);
    var joined := Join("\n\n", chunks);
    text := Truncate(joined, maxChars);
  }
}
