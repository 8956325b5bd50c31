/**
 * The run log: the three record shapes the conformance loop appends to
 * `log.txt`, the exact text of each, and what the report reader makes of a
 * line once it has split it on spaces and dropped the newline.
 */
module Log {
  import opened Seqs
  import opened Text

  /**
   * One appended record: the header written for every visited operation (its HTTP verb and path), a
   * passing trial, and a failing trial with the documented codes as text.
   */
  datatype Record =
    | Test(verb: string, path: string)
    | Passed(status: nat)
    | Failed(status: nat, codes: string)

  /** The characters that would break a record into other tokens or lines. */
  predicate Plain(s: string) {
    ' ' !in s && '\n' !in s && '\r' !in s
  }

  /** The text written for a record, newline included. */
  function Line(r: Record): (line: string)
    ensures |line| >= 2 && line[|line| - 1] == '\n'
  {
    match r
    case Test(m, p) => "test [" + m + "] " + p + "\n"
    case Passed(s) => "ok " + NatToString(s) + "\n"
    case Failed(s, c) => "failed " + NatToString(s) + " " + c + "\n"
  }

  /** The log written for a sequence of records, one line each, in order. */
  function LinesOf(rs: seq<Record>): (lines: seq<string>)
    ensures |lines| == |rs|
    ensures forall i :: 0 <= i < |rs| ==> lines[i] == Line(rs[i])
  {
    if rs == [] then [] else LinesOf(rs[..|rs| - 1]) + [Line(rs[|rs| - 1])]
  }

  /** Writing two record runs one after the other gives the two logs concatenated. */
  lemma {:induction false} LinesOfAppend(a: seq<Record>, b: seq<Record>)
    ensures LinesOf(a + b) == LinesOf(a) + LinesOf(b)
  {
    if b == [] {
      AppendEmpty(a);
      AppendEmpty(LinesOf(a));
    } else {
      var front, last := b[..|b| - 1], b[|b| - 1];
      LinesOfAppend(a, front);
      FrontLast(b);
      AppendAssoc(a, front, [last]);
      LinesSnoc(a + front, last);
      LinesSnoc(front, last);
      AppendAssoc(LinesOf(a), LinesOf(front), [Line(last)]);
    }
  }

  /** Appending one line for one more record. */
  lemma LinesSnoc(rs: seq<Record>, r: Record)
    ensures LinesOf(rs + [r]) == LinesOf(rs) + [Line(r)]
  {
    assert (rs + [r])[..|rs|] == rs;
  }

  /**
   * The reader's view of a line: `line.split(" ")`, then the last piece cut at
   * its first newline (`line[-1].split("\n")[0]`).
   */
  function Tokens(line: string): (t: seq<string>)
    ensures |t| == |Split(line, ' ')| >= 1
    ensures forall i :: 0 <= i < |t| ==> ' ' !in t[i]
    ensures '\n' !in t[|t| - 1]
  {
    var parts := Split(line, ' ');
    var last := parts[|parts| - 1];
    SplitPieces(line, ' ');
    SplitPieces(last, '\n');
    assert ' ' !in Split(last, '\n')[0] by {
      assert multiset(Split(last, '\n')[0]) <= multiset(last);
    }
    parts[..|parts| - 1] + [Split(last, '\n')[0]]
  }

  /** Dropping the trailing newline of a piece that holds no other newline. */
  lemma StripNewline(s: string)
    requires '\n' !in s
    ensures Split(s + "\n", '\n')[0] == s
  {
    SplitHead(s, "", '\n');
    assert s + "\n" == s + ['\n'] + "";
  }

  /** The text of each record as its space-separated pieces. */
  lemma LineShapes(r: Record)
    ensures r.Test? ==> Line(r) == "test" + [' '] + ("[" + r.verb + "]") + [' '] + (r.path + "\n")
    ensures r.Passed? ==> Line(r) == "ok" + [' '] + (NatToString(r.status) + "\n")
    ensures r.Failed? ==> Line(r) == "failed" + [' '] + NatToString(r.status) + [' '] + (r.codes + "\n")
  {
  }

  /** The reader's tokens once the split pieces of a line are known. */
  lemma TokensFromPieces(line: string, pieces: seq<string>, last: string)
    requires '\n' !in last
    requires Split(line, ' ') == pieces + [last + "\n"]
    ensures Tokens(line) == pieces + [last]
  {
    StripNewline(last);
  }

  /** A passing-trial line reads back as `ok` and the decimal status. */
  lemma TokensPassed(s: nat)
    ensures Tokens(Line(Passed(s))) == ["ok", NatToString(s)]
  {
    var d := NatToString(s);
    var line := Line(Passed(s));
    LineShapes(Passed(s));
    NoSpaceInDecimal(s);
    assert ' ' !in d + "\n";
    SplitHead("ok", d + "\n", ' ');
    assert Split(line, ' ') == ["ok"] + [d + "\n"];
    TokensFromPieces(line, ["ok"], d);
  }

  /** Whatever the codes, a failing-trial line's first token is `failed`. */
  lemma TokensFailedTag(s: nat, c: string)
    ensures Tokens(Line(Failed(s, c)))[0] == "failed"
  {
    var d := NatToString(s);
    LineShapes(Failed(s, c));
    assert "failed" + [' '] + d + [' '] + (c + "\n") == "failed" + [' '] + (d + [' '] + (c + "\n"));
    SplitHead("failed", d + [' '] + (c + "\n"), ' ');
  }

  /** Two leading space-free pieces split off first. */
  lemma SplitTwoHeads(a: string, b: string, rest: string)
    requires ' ' !in a && ' ' !in b
    ensures Split(a + [' '] + (b + [' '] + rest), ' ') == [a, b] + Split(rest, ' ')
  {
    SplitHead(a, b + [' '] + rest, ' ');
    SplitHead(b, rest, ' ');
  }

  /** With a plain verb and path, a header line reads back as `test`, `[verb]`, path. */
  lemma TokensTest(m: string, p: string)
    requires Plain(m) && Plain(p)
    ensures Tokens(Line(Test(m, p))) == ["test", "[" + m + "]", p]
  {
    var line := Line(Test(m, p));
    var bracketed := "[" + m + "]";
    assert ' ' !in bracketed && ' ' !in p + "\n";
    assert line == "test" + [' '] + (bracketed + [' '] + (p + "\n")) by {
      LineShapes(Test(m, p));
    }
    SplitTwoHeads("test", bracketed, p + "\n");
    assert Split(line, ' ') == ["test", bracketed] + [p + "\n"];
    TokensFromPieces(line, ["test", bracketed], p);
  }

  /**
   * Splitting codes followed by a newline on spaces: the same pieces, the
   * newline stuck to the last one.
   */
  lemma SplitBeforeNewline(c: string)
    requires '\n' !in c
    ensures var pieces := Split(c, ' ');
      Split(c + "\n", ' ') == pieces[..|pieces| - 1] + [pieces[|pieces| - 1] + "\n"] &&
      '\n' !in pieces[|pieces| - 1]
  {
    var pieces := Split(c, ' ');
    Text.SplitPieces(c, ' ');
    SplitAppendTail(pieces, "\n", ' ');
    PieceOfNewlineFree(c, pieces[|pieces| - 1]);
  }

  /** A string made of characters of a newline-free string is newline-free. */
  lemma PieceOfNewlineFree(c: string, piece: string)
    requires '\n' !in c && multiset(piece) <= multiset(c)
    ensures '\n' !in piece
  {
    assert multiset(piece)['\n'] == 0;
  }

  /** The reader's tokens of a line that splits into `front`, then pieces ending in a newline. */
  lemma TokensAfterFront(line: string, front: seq<string>, pieces: seq<string>)
    requires |pieces| >= 1 && '\n' !in pieces[|pieces| - 1]
    requires Split(line, ' ') == front + (pieces[..|pieces| - 1] + [pieces[|pieces| - 1] + "\n"])
    ensures Tokens(line) == front + pieces
  {
    var n := |pieces|;
    AppendAssoc(front, pieces[..n - 1], [pieces[n - 1] + "\n"]);
    TokensFromPieces(line, front + pieces[..n - 1], pieces[n - 1]);
    AppendAssoc(front, pieces[..n - 1], [pieces[n - 1]]);
    FrontLast(pieces);
  }

  /**
   * A failing-trial line reads back as `failed`, the status, and then the
   * documented codes split on their spaces.
   */
  lemma TokensFailed(s: nat, c: string)
    requires '\n' !in c
    ensures Tokens(Line(Failed(s, c))) == ["failed", NatToString(s)] + Split(c, ' ')
  {
    var line := Line(Failed(s, c));
    var d := NatToString(s);
    assert line == "failed" + [' '] + (d + [' '] + (c + "\n")) by {
      LineShapes(Failed(s, c));
    }
    NoSpaceInDecimal(s);
    SplitTwoHeads("failed", d, c + "\n");
    SplitBeforeNewline(c);
    TokensAfterFront(line, ["failed", d], Split(c, ' '));
  }
}
