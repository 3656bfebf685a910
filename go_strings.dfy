/**
 * The parts of Go's `strings` package that the tag parser relies on, on `string` values:
 * `Split` (one-character separator), `SplitN(s, sep, 2)`, `TrimSpace`, `Trim` with a
 * one-character cutset, `Contains`, and the UTF-8 byte length that `len` reports.
 */
module GoStrings {
  import opened Wrappers

  /** The position of the first `c` in `s`. */
  function IndexOf(s: string, c: char): (r: Option<nat>)
    ensures r.None? <==> c !in s
    ensures r.Some? ==> r.value < |s| && s[r.value] == c && c !in s[..r.value]
  {
    if |s| == 0 then None
    else if s[0] == c then Some(0)
    else
      match IndexOf(s[1..], c)
      case None => None
      case Some(i) =>
        assert s[..i + 1] == [s[0]] + s[1..][..i];
        Some(i + 1)
  }

  /** The parts joined back together with `sep` between neighbours. */
  function Join(parts: seq<string>, sep: char): string
    requires |parts| > 0
  {
    if |parts| == 1 then parts[0] else parts[0] + [sep] + Join(parts[1..], sep)
  }

  /**
   * `strings.Split(s, sep)`: the maximal pieces between separators, at least one, so the
   * empty string splits into one empty part.
   */
  function Split(s: string, sep: char): (parts: seq<string>)
    ensures |parts| > 0
    ensures forall i :: 0 <= i < |parts| ==> sep !in parts[i]
    ensures Join(parts, sep) == s
    decreases |s|
  {
    match IndexOf(s, sep)
    case None => [s]
    case Some(i) =>
      var rest := Split(s[i + 1..], sep);
      assert s == s[..i] + [sep] + s[i + 1..];
      [s[..i]] + rest
  }

  /** The first separator after a separator-free prefix is the one right after it. */
  lemma {:induction false} IndexOfAfterFree(p: string, sep: char, t: string)
    requires sep !in p
    ensures IndexOf(p + [sep] + t, sep) == Some(|p|)
    decreases |p|
  {
    if |p| > 0 {
      IndexOfAfterFree(p[1..], sep, t);
      assert (p + [sep] + t)[1..] == p[1..] + [sep] + t;
    }
  }

  /** `Split` takes apart exactly what `Join` put together from separator-free parts. */
  lemma {:induction false} SplitJoin(parts: seq<string>, sep: char)
    requires |parts| > 0
    requires forall i :: 0 <= i < |parts| ==> sep !in parts[i]
    ensures Split(Join(parts, sep), sep) == parts
    decreases |parts|
  {
    if |parts| > 1 {
      var s := Join(parts, sep);
      var p := parts[0];
      assert s == p + [sep] + Join(parts[1..], sep);
      IndexOfAfterFree(p, sep, Join(parts[1..], sep));
      assert s[..|p|] == p;
      assert s[|p| + 1..] == Join(parts[1..], sep);
      SplitJoin(parts[1..], sep);
      assert Split(s, sep) == [p] + Split(Join(parts[1..], sep), sep);
      assert parts == [p] + parts[1..];
    } else {
      assert Join(parts, sep) == parts[0];
      assert IndexOf(parts[0], sep).None?;
    }
  }

  /**
   * `strings.SplitN(s, sep, 2)` when it yields two parts: the text before the first `sep`
   * and everything after it; `None` when `s` has no `sep` (a single part).
   */
  function CutFirst(s: string, sep: char): (r: Option<(string, string)>)
    ensures r.None? <==> sep !in s
    ensures r.Some? ==> s == r.value.0 + [sep] + r.value.1 && sep !in r.value.0
  {
    match IndexOf(s, sep)
    case None => None
    case Some(i) =>
      assert s == s[..i] + [sep] + s[i + 1..];
      Some((s[..i], s[i + 1..]))
  }

  /** `unicode.IsSpace`. */
  predicate IsSpace(c: char) {
    var n := c as int;
    || (0x09 <= n <= 0x0D) || n == 0x20 || n == 0x85 || n == 0xA0 || n == 0x1680
    || (0x2000 <= n <= 0x200A) || n == 0x2028 || n == 0x2029 || n == 0x202F || n == 0x205F || n == 0x3000
  }

  predicate IsQuote(c: char) {
    c == '\''
  }

  /** The number of leading characters of `s` that satisfy `drop`. */
  function LeadingCount(s: string, drop: char -> bool): (n: nat)
    ensures n <= |s|
    ensures forall i :: 0 <= i < n ==> drop(s[i])
    ensures n < |s| ==> !drop(s[n])
  {
    if |s| == 0 || !drop(s[0]) then 0 else 1 + LeadingCount(s[1..], drop)
  }

  /** The number of trailing characters of `s` that satisfy `drop`. */
  function TrailingCount(s: string, drop: char -> bool): (n: nat)
    ensures n <= |s|
    ensures forall i :: |s| - n <= i < |s| ==> drop(s[i])
    ensures n < |s| ==> !drop(s[|s| - n - 1])
  {
    if |s| == 0 || !drop(s[|s| - 1]) then 0 else 1 + TrailingCount(s[..|s| - 1], drop)
  }

  /**
   * `s` with every leading and every trailing character satisfying `drop` removed: what is
   * left is a slice of `s` that neither starts nor ends with such a character.
   */
  function TrimWhere(s: string, drop: char -> bool): (r: string)
    ensures exists i, j ::
      (&& 0 <= i <= j <= |s| && r == s[i..j]
       && (forall k :: 0 <= k < i ==> drop(s[k])) && (forall k :: j <= k < |s| ==> drop(s[k])))
    ensures |r| > 0 ==> !drop(r[0]) && !drop(r[|r| - 1])
  {
    var i := LeadingCount(s, drop);
    var n := TrailingCount(s[i..], drop);
    TrimmedEnds(s, drop, i, n);
    s[i..|s| - n]
  }

  /** The slice between the leading and the trailing run keeps neither run's characters. */
  lemma TrimmedEnds(s: string, drop: char -> bool, i: nat, n: nat)
    requires i == LeadingCount(s, drop) && n == TrailingCount(s[i..], drop)
    ensures i <= |s| - n
    ensures forall k :: |s| - n <= k < |s| ==> drop(s[k])
    ensures var r := s[i..|s| - n]; |r| > 0 ==> !drop(r[0]) && !drop(r[|r| - 1])
  {
    var t := s[i..];
    var j := |s| - n;
    forall k | j <= k < |s|
      ensures drop(s[k])
    {
      assert s[k] == t[k - i];
    }
    var r := s[i..j];
    assert r == t[..|t| - n];
    assert |r| > 0 ==> r[0] == s[i] && r[|r| - 1] == t[|t| - n - 1];
  }

  /** `strings.TrimSpace`. */
  function TrimSpace(s: string): string {
    TrimWhere(s, IsSpace)
  }

  /** `strings.Trim(s, "'")`. */
  function TrimQuotes(s: string): string {
    TrimWhere(s, IsQuote)
  }

  /** A string with no space or quote at its ends is left alone. */
  lemma TrimKeepsClean(s: string, drop: char -> bool)
    requires |s| > 0 ==> !drop(s[0]) && !drop(s[|s| - 1])
    ensures TrimWhere(s, drop) == s
  {
    assert LeadingCount(s, drop) == 0;
  }

  /** `strings.Contains`. */
  predicate Contains(s: string, sub: string) {
    exists i :: 0 <= i <= |s| - |sub| && OccursAt(s, sub, i)
  }

  predicate OccursAt(s: string, sub: string, i: int) {
    0 <= i <= |s| - |sub| && s[i..i + |sub|] == sub
  }

  /** The number of bytes the UTF-8 encoding of `c` takes. */
  function Utf8Width(c: char): (n: nat)
    ensures 1 <= n <= 4
  {
    if c as int < 0x80 then 1 else if c as int < 0x800 then 2 else if c as int < 0x10000 then 3 else 4
  }

  /** `len(s)` of a Go string: its length in UTF-8 bytes. */
  function Utf8Len(s: string): (n: nat)
    ensures |s| <= n <= 4 * |s|
  {
    if |s| == 0 then 0 else Utf8Width(s[0]) + Utf8Len(s[1..])
  }

  /** An all-ASCII string has as many bytes as characters. */
  lemma {:induction false} AsciiLen(s: string)
    requires forall i :: 0 <= i < |s| ==> s[i] as int < 0x80
    ensures Utf8Len(s) == |s|
    decreases |s|
  {
    if |s| > 0 {
      AsciiLen(s[1..]);
    }
  }
}
