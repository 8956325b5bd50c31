/**
 * The two pieces of Python string handling the log depends on: `str(n)` for a
 * non-negative integer and `s.split(c)` for a one-character separator.
 */
module Text {
  import opened Seqs

  predicate IsDigit(c: char) {
    '0' <= c <= '9'
  }

  predicate AllDigits(s: string) {
    forall i :: 0 <= i < |s| ==> IsDigit(s[i])
  }

  function DigitChar(d: nat): (c: char)
    requires d < 10
    ensures IsDigit(c)
  {
    ('0' as int + d) as char
  }

  /** Python's `str(n)` for `n >= 0`: decimal digits, no leading zero. */
  function NatToString(n: nat): (s: string)
    ensures |s| >= 1 && AllDigits(s)
    ensures |s| > 1 ==> s[0] != '0'
  {
    if n < 10 then [DigitChar(n)] else NatToString(n / 10) + [DigitChar(n % 10)]
  }

  /** Python's `int(s)` for a string of decimal digits. */
  function ParseDecimal(s: string): nat
    requires AllDigits(s)
  {
    if s == [] then 0
    else 10 * ParseDecimal(s[..|s| - 1]) + (s[|s| - 1] as int - '0' as int)
  }

  /** Reading back what `str` wrote gives the number: `int(str(n)) == n`. */
  lemma {:induction false} ParseNatToString(n: nat)
    ensures ParseDecimal(NatToString(n)) == n
  {
    var s := NatToString(n);
    if n >= 10 {
      ParseNatToString(n / 10);
      assert s[..|s| - 1] == NatToString(n / 10);
    }
  }

  /** Two statuses share a decimal rendering only when they are equal. */
  lemma NatToStringInjective(a: nat, b: nat)
    ensures NatToString(a) == NatToString(b) <==> a == b
  {
    if NatToString(a) == NatToString(b) {
      ParseNatToString(a);
      ParseNatToString(b);
    }
  }

  lemma NoSpaceInDecimal(n: nat)
    ensures ' ' !in NatToString(n) && '\n' !in NatToString(n) && '\r' !in NatToString(n) && '\t' !in NatToString(n)
  {
  }

  /** Position of the first occurrence of `sep` in `s`. */
  function IndexOf(s: string, sep: char): (i: nat)
    requires sep in s
    ensures i < |s| && s[i] == sep && sep !in s[..i]
  {
    if s[0] == sep then 0
    else
      var j := IndexOf(s[1..], sep);
      assert s[..1 + j] == [s[0]] + s[1..][..j];
      1 + j
  }

  /** `sep.join(parts)`. */
  function Join(parts: seq<string>, sep: char): string
    requires |parts| >= 1
  {
    if |parts| == 1 then parts[0] else parts[0] + [sep] + Join(parts[1..], sep)
  }

  /**
   * Python's `s.split(sep)`: the pieces between occurrences of `sep`, empty
   * pieces included, so there is always at least one, and joining them back
   * with `sep` gives `s`.
   */
  function Split(s: string, sep: char): (parts: seq<string>)
    ensures |parts| >= 1
    ensures Join(parts, sep) == s
    decreases |s|
  {
    if sep !in s then [s]
    else
      var i := IndexOf(s, sep);
      var rest := Split(s[i + 1..], sep);
      assert s == s[..i] + [sep] + s[i + 1..];
      assert ([s[..i]] + rest)[1..] == rest;
      [s[..i]] + rest
  }

  /** No piece holds the separator, and every piece is made of characters of `s`. */
  lemma {:induction false} SplitPieces(s: string, sep: char)
    ensures forall i :: 0 <= i < |Split(s, sep)| ==> sep !in Split(s, sep)[i]
    ensures forall i :: 0 <= i < |Split(s, sep)| ==> multiset(Split(s, sep)[i]) <= multiset(s)
    decreases |s|
  {
    if sep in s {
      var i := IndexOf(s, sep);
      var rest := Split(s[i + 1..], sep);
      SplitPieces(s[i + 1..], sep);
      assert s == s[..i] + [sep] + s[i + 1..];
      assert multiset(s) == multiset(s[..i]) + multiset([sep]) + multiset(s[i + 1..]);
      assert Split(s, sep) == [s[..i]] + rest;
    }
  }

  /** Splitting stops at the first separator. */
  lemma SplitHead(a: string, b: string, sep: char)
    requires sep !in a
    ensures Split(a + [sep] + b, sep) == [a] + Split(b, sep)
  {
    var s := a + [sep] + b;
    assert s[|a|] == sep;
    var i := IndexOf(s, sep);
    assert s[..i] == a && s[i + 1..] == b;
  }

  /** Splitting undoes joining pieces that do not contain the separator. */
  lemma {:induction false} SplitJoin(parts: seq<string>, sep: char)
    requires |parts| >= 1
    requires forall i :: 0 <= i < |parts| ==> sep !in parts[i]
    ensures Split(Join(parts, sep), sep) == parts
  {
    if |parts| > 1 {
      SplitJoin(parts[1..], sep);
      SplitHead(parts[0], Join(parts[1..], sep), sep);
      assert parts == [parts[0]] + parts[1..];
    }
  }

  /** Appending to the last piece appends to the joined string. */
  lemma {:induction false} JoinAppendLast(parts: seq<string>, tail: string, sep: char)
    requires |parts| >= 1
    ensures Join(parts[..|parts| - 1] + [parts[|parts| - 1] + tail], sep) == Join(parts, sep) + tail
  {
    var n := |parts|;
    var q := parts[..n - 1] + [parts[n - 1] + tail];
    if n > 1 {
      JoinAppendLast(parts[1..], tail, sep);
      assert q[1..] == parts[1..][..n - 2] + [parts[1..][n - 2] + tail];
    }
  }
  /** Appending a separator-free tail to the last of separator-free pieces keeps them separator-free. */
  lemma AppendLastNoSep(parts: seq<string>, tail: string, sep: char)
    requires |parts| >= 1 && sep !in tail
    requires forall i :: 0 <= i < |parts| ==> sep !in parts[i]
    ensures var q := parts[..|parts| - 1] + [parts[|parts| - 1] + tail];
      forall i :: 0 <= i < |q| ==> sep !in q[i]
  {
    var n := |parts|;
    var q := parts[..n - 1] + [parts[n - 1] + tail];
    forall i | 0 <= i < |q| ensures sep !in q[i] {
      if i < n - 1 {
        assert q[i] == parts[i];
      }
    }
  }

  /**
   * Splitting a joined string with a separator-free tail appended: the same
   * pieces, the tail stuck to the last one.
   */
  lemma SplitAppendTail(parts: seq<string>, tail: string, sep: char)
    requires |parts| >= 1 && sep !in tail
    requires forall i :: 0 <= i < |parts| ==> sep !in parts[i]
    ensures Split(Join(parts, sep) + tail, sep) == parts[..|parts| - 1] + [parts[|parts| - 1] + tail]
  {
    JoinAppendLast(parts, tail, sep);
    AppendLastNoSep(parts, tail, sep);
    SplitJoin(parts[..|parts| - 1] + [parts[|parts| - 1] + tail], sep);
  }
}
