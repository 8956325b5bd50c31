/**
 * `log.txt` as text: the written lines run together, and read back the way
 * Python's text-mode `for line in myfile` does. Reading turns `\r\n` and a
 * lone `\r` into `\n`, then ends each line just after its `\n`. A verb or
 * path holding a line break therefore comes back as more than one line.
 */
module LogFile {
  import opened Seqs
  import opened Text
  import opened Log

  /** The file's text after the writes, in order. */
  function Contents(log: seq<string>): string {
    if log == [] then [] else log[0] + Contents(log[1..])
  }

  /** Universal newlines on reading: `\r\n` and a lone `\r` both become `\n`. */
  function Newlines(s: string): (r: string)
    ensures '\r' !in r
    decreases |s|
  {
    if s == [] then []
    else if s[0] == '\r' then
      if |s| >= 2 && s[1] == '\n' then "\n" + Newlines(s[2..]) else "\n" + Newlines(s[1..])
    else [s[0]] + Newlines(s[1..])
  }

  /**
   * Iterating over the text: every line but the last ends with its only
   * `\n`, the last holds at most one `\n` (at its end), no line is empty, and
   * the lines run together give the text back.
   */
  function Lines(text: string): (ls: seq<string>)
    ensures Contents(ls) == text
    ensures forall i :: 0 <= i < |ls| ==> ls[i] != [] && '\n' !in ls[i][..|ls[i]| - 1]
    ensures forall i :: 0 <= i < |ls| - 1 ==> ls[i][|ls[i]| - 1] == '\n'
    decreases |text|
  {
    if text == [] then []
    else if '\n' !in text then
      assert Contents([text]) == text + Contents([]);
      assert text[..|text| - 1] <= text;
      [text]
    else
      var k := IndexOf(text, '\n');
      var rest := Lines(text[k + 1..]);
      LinesCons(text[..k + 1], rest);
      CutGlue(text, k + 1);
      [text[..k + 1]] + rest
  }

  lemma LinesCons(l: string, rest: seq<string>)
    ensures Contents([l] + rest) == l + Contents(rest)
  {
    assert ([l] + rest)[1..] == rest;
  }

  /** What the reader loop iterates over, given what was written. */
  function ReadBack(log: seq<string>): seq<string> {
    Lines(Newlines(Contents(log)))
  }

  /** A written line that comes back as itself: one `\n`, at its end, and no `\r`. */
  predicate WholeLine(l: string) {
    |l| >= 1 && l[|l| - 1] == '\n' && '\n' !in l[..|l| - 1] && '\r' !in l
  }

  /** Text without `\r` is read unchanged. */
  lemma {:induction false} NewlinesKeep(s: string)
    requires '\r' !in s
    ensures Newlines(s) == s
    decreases |s|
  {
    if s != [] {
      assert s[1..] <= s[1..] && s == [s[0]] + s[1..];
      NewlinesKeep(s[1..]);
    }
  }

  /** Whole lines written together hold no `\r`. */
  lemma {:induction false} ContentsNoReturn(log: seq<string>)
    requires forall i :: 0 <= i < |log| ==> WholeLine(log[i])
    ensures '\r' !in Contents(log)
  {
    if log != [] {
      ContentsNoReturn(log[1..]);
    }
  }

  /** A whole line at the front of the text is read as one line. */
  lemma LinesFront(l: string, rest: string)
    requires WholeLine(l)
    ensures Lines(l + rest) == [l] + Lines(rest)
  {
    var text := l + rest;
    var n := |l| - 1;
    assert text[n] == '\n';
    var k := IndexOf(text, '\n');
    assert k == n;
    assert text[..k + 1] == l && text[k + 1..] == rest;
  }

  /** Whole lines written together are iterated back one by one. */
  lemma {:induction false} LinesOfWhole(log: seq<string>)
    requires forall i :: 0 <= i < |log| ==> WholeLine(log[i])
    ensures Lines(Contents(log)) == log
  {
    if log != [] {
      LinesOfWhole(log[1..]);
      LinesFront(log[0], Contents(log[1..]));
      assert [log[0]] + log[1..] == log;
    }
  }

  /** A log of whole lines is read back exactly as it was written. */
  lemma ReadBackWhole(log: seq<string>)
    requires forall i :: 0 <= i < |log| ==> WholeLine(log[i])
    ensures ReadBack(log) == log
  {
    ContentsNoReturn(log);
    NewlinesKeep(Contents(log));
    LinesOfWhole(log);
  }

  /** A record whose text keeps to one line: plain verb and path, codes without line breaks. */
  predicate Unbroken(r: Record) {
    match r
    case Test(m, p) => Plain(m) && Plain(p)
    case Passed(_) => true
    case Failed(_, c) => '\n' !in c && '\r' !in c
  }

  /** Such a record is written as one whole line. */
  lemma LineWhole(r: Record)
    requires Unbroken(r)
    ensures WholeLine(Line(r))
  {
    var l := Line(r);
    match r
    case Test(m, p) =>
      assert l[..|l| - 1] == "test [" + m + "] " + p;
    case Passed(s) =>
      NoSpaceInDecimal(s);
      assert l[..|l| - 1] == "ok " + NatToString(s);
    case Failed(s, c) =>
      NoSpaceInDecimal(s);
      assert l[..|l| - 1] == "failed " + NatToString(s) + " " + c;
  }

  /** A log of such records is a log of whole lines. */
  lemma LinesWhole(rs: seq<Record>)
    requires forall i :: 0 <= i < |rs| ==> Unbroken(rs[i])
    ensures forall i :: 0 <= i < |LinesOf(rs)| ==> WholeLine(LinesOf(rs)[i])
  {
    forall i | 0 <= i < |rs| ensures WholeLine(LinesOf(rs)[i]) {
      LineWhole(rs[i]);
    }
  }
}
