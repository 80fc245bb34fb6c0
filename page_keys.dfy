/**
 * The page selection is keyed by strings built as `${lesson}-${page}`, once
 * when the page list is built and once when the words are gathered. The rest
 * of the model keys pages by the pair PageId(lesson, page); this module shows
 * that for non-negative numbers the string spelling loses nothing: two
 * different pages never share a key.
 */
module PageKeys {
  import opened Vocabulary

  predicate IsDigit(c: char)
  {
    '0' <= c <= '9'
  }

  function DigitChar(d: int): (c: char)
    requires 0 <= d < 10
  {
    (('0' as int) + d) as char
  }

  function DigitValue(c: char): int
  {
    (c as int) - ('0' as int)
  }

  /** How a template literal spells a non-negative integer: decimal, no leading zeros. */
  function DecimalText(n: nat): (s: string)
    ensures |s| > 0
    ensures forall i :: 0 <= i < |s| ==> IsDigit(s[i])
  {
    if n < 10 then [DigitChar(n)] else DecimalText(n / 10) + [DigitChar(n % 10)]
  }

  /** Reading a string of digits back as a number. */
  function DecimalValue(s: string): int
  {
    if s == [] then 0 else 10 * DecimalValue(s[..|s| - 1]) + DigitValue(s[|s| - 1])
  }

  /** Reading back what DecimalText wrote gives the number again. */
  lemma {:induction false} DecimalRoundTrip(n: nat)
    ensures DecimalValue(DecimalText(n)) == n
  {
    if n >= 10 {
      DecimalRoundTrip(n / 10);
      var s := DecimalText(n);
      assert s[..|s| - 1] == DecimalText(n / 10);
    }
  }

  /** The checkbox value and selection key of a page: `${lesson}-${page}`. */
  function IdText(id: PageId): string
    requires id.lesson >= 0 && id.page >= 0
  {
    DecimalText(id.lesson) + "-" + DecimalText(id.page)
  }

  /** In digits followed by '-', the first '-' stands right after the digits. */
  lemma FirstDash(a: string, b: string)
    requires forall i :: 0 <= i < |a| ==> IsDigit(a[i])
    ensures (a + "-" + b)[|a|] == '-'
    ensures forall i :: 0 <= i < |a| ==> (a + "-" + b)[i] != '-'
  {
  }

  /** Splitting at the first '-' recovers both halves of a digits-dash-anything string. */
  lemma DashSplit(a: string, b: string, c: string, d: string)
    requires forall i :: 0 <= i < |a| ==> IsDigit(a[i])
    requires forall i :: 0 <= i < |c| ==> IsDigit(c[i])
    requires a + "-" + b == c + "-" + d
    ensures a == c && b == d
  {
    var s := a + "-" + b;
    FirstDash(a, b);
    FirstDash(c, d);
    assert |a| == |c|;
    assert a == s[..|a|] && c == s[..|c|];
    assert b == s[|a| + 1..] && d == s[|c| + 1..];
  }

  /** The page key is injective: equal keys mean the same lesson and the same page. */
  lemma IdTextInjective(x: PageId, y: PageId)
    requires x.lesson >= 0 && x.page >= 0 && y.lesson >= 0 && y.page >= 0
    requires IdText(x) == IdText(y)
    ensures x == y
  {
    DashSplit(DecimalText(x.lesson), DecimalText(x.page), DecimalText(y.lesson), DecimalText(y.page));
    DecimalRoundTrip(x.lesson);
    DecimalRoundTrip(y.lesson);
    DecimalRoundTrip(x.page);
    DecimalRoundTrip(y.page);
  }
}
