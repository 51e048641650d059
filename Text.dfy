/** Text building blocks of the tool's plain-text config rendering: tab
    padding, decimal rendering of unsigned integers, and the view of a text as
    its lines. */
module Text {

  /** `'\t'.to_string().repeat(n)`. */
  function Tabs(n: nat): (r: string)
    ensures |r| == n && forall k :: 0 <= k < n ==> r[k] == '\t'
  {
    if n == 0 then "" else "\t" + Tabs(n - 1)
  }

  /** How many tabs a line starts with. */
  function LeadingTabs(s: string): (r: nat)
    ensures r <= |s|
  {
    if s != [] && s[0] == '\t' then 1 + LeadingTabs(s[1..]) else 0
  }

  /** Padding a text that does not itself start with a tab by `n` tabs
      indents it by exactly `n`. */
  lemma {:induction false} LeadingTabsOfPadded(n: nat, s: string)
    requires s == [] || s[0] != '\t'
    ensures LeadingTabs(Tabs(n) + s) == n
  {
    if n > 0 {
      assert (Tabs(n) + s)[1..] == Tabs(n - 1) + s;
      LeadingTabsOfPadded(n - 1, s);
    }
  }

  predicate StartsWith(s: string, prefix: string) {
    |prefix| <= |s| && s[..|prefix|] == prefix
  }

  /** A text padded by `n` tabs starts with any shorter run of tabs. */
  lemma TabsPrefix(m: nat, n: nat, s: string)
    requires m <= n
    ensures StartsWith(Tabs(n) + s, Tabs(m))
  {
    assert (Tabs(n) + s)[..m] == Tabs(m);
  }

  /** Padding `name + value` by `n` tabs, where `name` does not start with
      a tab, indents it by exactly `n`. */
  lemma PaddedField(n: nat, name: string, value: string)
    requires name != [] && name[0] != '\t'
    ensures LeadingTabs(Tabs(n) + name + value) == n
  {
    assert Tabs(n) + name + value == Tabs(n) + (name + value);
    LeadingTabsOfPadded(n, name + value);
  }

  // ---------------------------------------------------------------------------
  // Decimal rendering (`{}` on an unsigned integer)

  predicate IsDigit(c: char) {
    '0' <= c <= '9'
  }

  function DigitChar(d: nat): (c: char)
    requires d < 10
    ensures IsDigit(c) && c as int - '0' as int == d
  {
    (d + '0' as int) as char
  }

  /** The base-10 text of `n`, as `{}` prints an unsigned integer. */
  function Decimal(n: nat): (r: string)
    ensures r != [] && forall k :: 0 <= k < |r| ==> IsDigit(r[k])
  {
    if n < 10 then [DigitChar(n)] else Decimal(n / 10) + [DigitChar(n % 10)]
  }

  /** Reads a string of digits back as a number. */
  function ParseDecimal(s: string): nat
    requires forall k :: 0 <= k < |s| ==> IsDigit(s[k])
  {
    if s == [] then 0
    else 10 * ParseDecimal(s[..|s| - 1]) + DigitValue(s[|s| - 1])
  }

  function DigitValue(c: char): nat
    requires IsDigit(c)
  {
    c as int - '0' as int
  }

  /** Decimal rendering loses nothing: the number can be read back. */
  lemma {:induction false} DecimalRoundTrip(n: nat)
    ensures ParseDecimal(Decimal(n)) == n
  {
    if n >= 10 {
      var s := Decimal(n);
      assert s[..|s| - 1] == Decimal(n / 10);
      DecimalRoundTrip(n / 10);
    }
  }

  /** Different numbers render differently. */
  lemma DecimalInjective(m: nat, n: nat)
    requires Decimal(m) == Decimal(n)
    ensures m == n
  {
    DecimalRoundTrip(m);
    DecimalRoundTrip(n);
  }

  // ---------------------------------------------------------------------------
  // Lines

  /** The text written by emitting each line followed by a line break. */
  function Unlines(ls: seq<string>): string {
    if ls == [] then "" else ls[0] + "\n" + Unlines(ls[1..])
  }

  lemma {:induction false} UnlinesAppend(a: seq<string>, b: seq<string>)
    ensures Unlines(a + b) == Unlines(a) + Unlines(b)
  {
    if a == [] {
      assert a + b == b;
    } else {
      assert (a + b)[1..] == a[1..] + b;
      UnlinesAppend(a[1..], b);
    }
  }

  /** Writing one more line appends it and a line break. */
  lemma UnlinesSnoc(ls: seq<string>, l: string)
    ensures Unlines(ls + [l]) == Unlines(ls) + l + "\n"
  {
    UnlinesAppend(ls, [l]);
    assert Unlines([l]) == l + "\n" + Unlines([]);
  }

  /** The pieces of `s` between line breaks (`s.split('\n')`): a text with
      `k` line breaks has `k + 1` pieces, the last one empty when the text
      ends with a line break. */
  function Split(s: string): (r: seq<string>)
    ensures |r| >= 1
    ensures forall k :: 0 <= k < |r| ==> '\n' !in r[k]
  {
    if s == [] then [""]
    else
      var rest := Split(s[1..]);
      if s[0] == '\n' then [""] + rest else [[s[0]] + rest[0]] + rest[1..]
  }

  predicate AllLines(ls: seq<string>) {
    forall k :: 0 <= k < |ls| ==> '\n' !in ls[k]
  }

  lemma AllLinesAppend(a: seq<string>, b: seq<string>)
    requires AllLines(a) && AllLines(b)
    ensures AllLines(a + b)
  {
    forall k | 0 <= k < |a + b| ensures '\n' !in (a + b)[k] {
      if k >= |a| { assert (a + b)[k] == b[k - |a|]; }
    }
  }

  lemma {:induction false} SplitLine(l: string)
    requires '\n' !in l
    ensures Split(l) == [l]
  {
    if l != [] {
      SplitLine(l[1..]);
      assert [l[0]] + l[1..] == l;
    }
  }

  lemma {:induction false} SplitAfterLine(l: string, t: string)
    requires '\n' !in l
    ensures Split(l + "\n" + t) == [l] + Split(t)
  {
    if l == [] {
      assert l + "\n" + t == "\n" + t;
      assert ("\n" + t)[1..] == t;
    } else {
      assert (l + "\n" + t)[1..] == l[1..] + "\n" + t;
      SplitAfterLine(l[1..], t);
      assert [l[0]] + l[1..] == l;
    }
  }

  /** Writing lines and then a final unterminated line, and splitting the
      result at its line breaks, gives back exactly those lines. */
  lemma {:induction false} SplitUnlines(ls: seq<string>, last: string)
    requires AllLines(ls) && '\n' !in last
    ensures Split(Unlines(ls) + last) == ls + [last]
  {
    if ls == [] {
      assert Unlines(ls) + last == last;
      SplitLine(last);
    } else {
      assert Unlines(ls) + last == ls[0] + "\n" + (Unlines(ls[1..]) + last);
      SplitAfterLine(ls[0], Unlines(ls[1..]) + last);
      SplitUnlines(ls[1..], last);
    }
  }

  /** A text that ends in a non-empty unterminated last line has no trailing
      line break. */
  lemma NoTrailingBreak(ls: seq<string>, last: string)
    requires last != [] && '\n' !in last
    ensures var s := Unlines(ls) + last; s[|s| - 1] != '\n'
  {
    var s := Unlines(ls) + last;
    assert s[|s| - 1] == last[|last| - 1];
  }
}
