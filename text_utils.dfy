/**
 * The string helpers of utils/text_utils.py, plus the few string primitives the
 * pipeline relies on (Python's whitespace stripping, `str.join`, `f"{n}"`).
 */
module TextUtils {
  import opened Wrappers
  import PySeq

  /** The single character `truncate_text` appends: U+2026 HORIZONTAL ELLIPSIS. */
  const Ellipsis: char := '\U{2026}'

  /** Python's `str.isspace` for one character: the set `str.strip()` removes. */
  predicate IsSpace(c: char)
  {
    || c == ' '
    || ('\t' <= c <= '\r')
    || ('\U{1c}' <= c <= '\U{1f}')
    || c == '\U{85}' || c == '\U{a0}' || c == '\U{1680}'
    || ('\U{2000}' <= c <= '\U{200a}')
    || c == '\U{2028}' || c == '\U{2029}' || c == '\U{202f}' || c == '\U{205f}' || c == '\U{3000}'
  }

  /** Python's `s.rstrip()`: the longest prefix of `s` that does not end in whitespace. */
  function RStrip(s: string): (r: string)
    ensures |r| <= |s| && r == s[..|r|]
    ensures r == [] || !IsSpace(r[|r| - 1])
    ensures forall i :: |r| <= i < |s| ==> IsSpace(s[i])
    decreases |s|
  {
    if s != [] && IsSpace(s[|s| - 1]) then RStrip(s[..|s| - 1]) else s
  }

  /** Python's `s.lstrip()`: the longest suffix of `s` that does not start with whitespace. */
  function LStrip(s: string): (r: string)
    ensures |r| <= |s| && r == s[|s| - |r|..]
    ensures r == [] || !IsSpace(r[0])
    ensures forall i :: 0 <= i < |s| - |r| ==> IsSpace(s[i])
    decreases |s|
  {
    if s != [] && IsSpace(s[0]) then LStrip(s[1..]) else s
  }

  /** Python's `s.strip()`. */
  function Strip(s: string): (r: string)
    ensures |r| <= |s|
    ensures r == [] || (!IsSpace(r[0]) && !IsSpace(r[|r| - 1]))
  {
    RStrip(LStrip(s))
  }

  /** `s.strip()` is the slice of `s` that starts where `s.lstrip()` starts. */
  lemma StripSlice(s: string)
    ensures var a, r := |s| - |LStrip(s)|, Strip(s);
      a + |r| <= |s| && r == s[a..a + |r|]
  {
    var l := LStrip(s);
    var r := RStrip(l);
    var a := |s| - |l|;
    PySeq.SliceOfSuffix(s, a, |r|);
  }

  /** Everything `s.strip()` leaves out of `s`, before and after the kept slice, is whitespace. */
  lemma StripDropsOnlySpace(s: string)
    ensures var a, r := |s| - |LStrip(s)|, Strip(s);
      && (forall i :: 0 <= i < a ==> IsSpace(s[i]))
      && (forall i :: a + |r| <= i < |s| ==> IsSpace(s[i]))
  {
    var l := LStrip(s);
    var r := RStrip(l);
    var a := |s| - |l|;
    assert l == s[a..];
    forall i | a + |r| <= i < |s|
      ensures IsSpace(s[i])
    {
      assert s[i] == l[i - a];
    }
  }

  /** `s.strip()` is empty exactly when every character of `s` is whitespace. */
  lemma StripEmptyIffBlank(s: string)
    ensures Strip(s) == "" <==> forall i :: 0 <= i < |s| ==> IsSpace(s[i])
  {
  }

  /** Python's `s.startswith(prefix)`. */
  predicate StartsWith(s: string, prefix: string)
  {
    |prefix| <= |s| && s[..|prefix|] == prefix
  }

  /** Python's `s.endswith(suffix)`. */
  predicate EndsWith(s: string, suffix: string)
  {
    |suffix| <= |s| && s[|s| - |suffix|..] == suffix
  }

  lemma ConcatStartsWith(a: string, b: string)
    ensures StartsWith(a + b, a)
  {
    assert (a + b)[..|a|] == a;
  }

  lemma ConcatEndsWith(a: string, b: string)
    ensures EndsWith(a + b, b)
  {
    assert (a + b)[|a|..] == b;
  }

  lemma StartsWithTrans(s: string, t: string, p: string)
    requires StartsWith(s, t) && StartsWith(t, p)
    ensures StartsWith(s, p)
  {
    assert s[..|p|] == t[..|t|][..|p|];
  }

  /**
   * `truncate_text(text, max_chars)`: the text itself when it fits; otherwise its first
   * `max_chars - 1` characters (Python slice semantics), right-stripped, plus an ellipsis.
   */
  function Truncate(text: string, maxChars: int): (r: string)
    ensures |text| <= maxChars ==> r == text
    ensures |text| > maxChars ==> |r| >= 1 && r[|r| - 1] == Ellipsis
    ensures |text| > maxChars && maxChars >= 1 ==>
      && |r| <= maxChars
      && r[..|r| - 1] == text[..|r| - 1]
      && (|r| == 1 || !IsSpace(r[|r| - 2]))
      && (forall i :: |r| - 1 <= i < maxChars - 1 ==> IsSpace(text[i]))
    ensures maxChars >= 1 ==> |r| <= maxChars
  {
    if |text| <= maxChars then text
    else RStrip(PySeq.Prefix(text, maxChars - 1)) + [Ellipsis]
  }

  /** Truncating again with the same bound changes nothing. */
  lemma TruncateIdempotent(text: string, n: int)
    requires n >= 1
    ensures Truncate(Truncate(text, n), n) == Truncate(text, n)
  {
  }

  /** A result of truncation is left unchanged by any larger bound. */
  lemma TruncateStableUnderLargerBound(text: string, n: int, m: int)
    requires 1 <= n <= m
    ensures Truncate(Truncate(text, n), m) == Truncate(text, n)
  {
  }

  /** Because of the right-strip, a truncated result can be shorter than the bound. */
  lemma TruncateCanFallShortOfBound()
    ensures Truncate("a  b", 3) == "a" + [Ellipsis]
    ensures |Truncate("a  b", 3)| < 3
  {
    assert PySeq.Prefix("a  b", 2) == "a ";
    assert RStrip("a ") == "a" by {
      assert IsSpace("a "[1]);
      assert "a "[..1] == "a";
    }
  }

  /** With a bound of 0 the slice `text[:-1]` keeps all but one character, so the bound is exceeded. */
  lemma TruncateZeroBoundOverflows()
    ensures Truncate("ab", 0) == "a" + [Ellipsis]
    ensures |Truncate("ab", 0)| > 0
  {
    assert PySeq.Prefix("ab", -1) == "a";
  }

  /**
   * `extract_domain(url)`: the network location `urlparse` finds, or "" when parsing
   * raises. `urlparse` is a parameter: `None` stands for an exception, `Some(netloc)`
   * for a successful parse.
   */
  function ExtractDomain(url: string, urlparse: string -> Option<string>): (r: string)
    ensures r == "" <==> (urlparse(url).None? || urlparse(url).value == "")
    ensures r != "" ==> urlparse(url) == Some(r)
  {
    match urlparse(url)
    case None => ""
    case Some(netloc) => if netloc != "" then netloc else ""
  }

  /** Sum of the lengths: Python's `sum(len(x) for x in xs)`. */
  function SumLen(xs: seq<string>): nat
  {
    if xs == [] then 0 else SumLen(xs[..|xs| - 1]) + |xs[|xs| - 1]|
  }

  /** Python's `sep.join(xs)`. */
  function Join(sep: string, xs: seq<string>): string
  {
    if xs == [] then ""
    else if |xs| == 1 then xs[0]
    else xs[0] + sep + Join(sep, xs[1..])
  }

  /** Decimal rendering of a natural number, as `f"{n}"` prints it. */
  function NatToString(n: nat): (r: string)
    ensures 1 <= |r|
    ensures forall i :: 0 <= i < |r| ==> '0' <= r[i] <= '9'
    ensures n < 10 <==> |r| == 1
  {
    if n < 10 then [(n + '0' as int) as char]
    else NatToString(n / 10) + [(n % 10 + '0' as int) as char]
  }

  /** The number a string of decimal digits denotes, most significant digit first. */
  function DigitsValue(s: string): int
  {
    if s == [] then 0 else DigitsValue(s[..|s| - 1]) * 10 + (s[|s| - 1] as int - '0' as int)
  }

  /** `f"{n}"` denotes `n`, with no leading zero. */
  lemma {:induction false} NatToStringValue(n: nat)
    ensures DigitsValue(NatToString(n)) == n
    ensures n == 0 || NatToString(n)[0] != '0'
  {
    if n >= 10 {
      var r := NatToString(n);
      assert r[..|r| - 1] == NatToString(n / 10);
      NatToStringValue(n / 10);
      assert r[0] == NatToString(n / 10)[0];
    }
  }

  /** Different numbers print differently. */
  lemma {:induction false} NatToStringInjective(n: nat, m: nat)
    requires NatToString(n) == NatToString(m)
    ensures n == m
  {
    if n >= 10 && m >= 10 {
      var a, b := NatToString(n), NatToString(m);
      assert a[..|a| - 1] == NatToString(n / 10);
      assert b[..|b| - 1] == NatToString(m / 10);
      NatToStringInjective(n / 10, m / 10);
      assert a[|a| - 1] == b[|b| - 1];
    }
  }
}
