/**
 * The report phase of `api_conformance_test`: a reader that walks the log
 * line by line, keeps one dictionary of tallies per operation, and hands each
 * finished dictionary to `print_report`.
 */
module Report {
  import opened Seqs
  import opened Wrappers
  import opened Text
  import opened Log

  /** One printed report entry: a group header, a success tally, a failure. */
  datatype Printed =
    | Header(verb: string, path: string)
    | Success(code: string, tests: nat)
    | Fail(code: string, documented: string)

  /** The Python exceptions the report phase can end with. */
  datatype PyError = IndexError | KeyError | FileNotFound

  /**
   * The reader as written (tag `fail`, `nb_error` never incremented) and the
   * reader its authors evidently meant (tag `failed`, one numbered entry per
   * failure, the whole rest of the line as documented codes).
   */
  datatype Reader = AsWritten | Intended

  function FailTag(reader: Reader): string {
    match reader
    case AsWritten => "fail"
    case Intended => "failed"
  }

  /**
   * The report dictionary `dic`. Its string keys are status codes read from
   * `ok` lines, kept in insertion order with their counts; its integer keys
   * hold `"<status>\t<codes>"` texts of failures. A string key never equals
   * an integer key, so the two parts never collide.
   */
  datatype Dic = Dic(tallies: seq<(string, nat)>, notes: map<nat, string>)

  const EmptyDic: Dic := Dic([], map[])

  /** The reader loop's variables: `dic`, `nb_error`, `first`, and what has been printed. */
  datatype ReaderState = ReaderState(dic: Dic, nbError: nat, first: bool, out: seq<Printed>)

  const Start: ReaderState := ReaderState(EmptyDic, 0, true, [])

  function Keys(t: seq<(string, nat)>): (ks: seq<string>)
    ensures |ks| == |t| && forall i :: 0 <= i < |t| ==> ks[i] == t[i].0
  {
    if t == [] then [] else [t[0].0] + Keys(t[1..])
  }

  predicate UniqueKeys(t: seq<(string, nat)>) {
    forall i, j :: 0 <= i < j < |t| ==> t[i].0 != t[j].0
  }

  /** `dic.get(key, 0)` for a string key. */
  function Lookup(t: seq<(string, nat)>, key: string): nat {
    if t == [] then 0 else if t[0].0 == key then t[0].1 else Lookup(t[1..], key)
  }

  /** The `ok` branch of the reader: count one more trial for `key`. */
  function Bump(t: seq<(string, nat)>, key: string): (r: seq<(string, nat)>)
    ensures |t| <= |r| <= |t| + 1 && r != []
  {
    if t == [] then [(key, 1)]
    else if t[0].0 == key then [(key, t[0].1 + 1)] + t[1..]
    else [t[0]] + Bump(t[1..], key)
  }

  /** A new key is added at the end, an existing key keeps its place; no other key moves. */
  lemma {:induction false} BumpKeys(t: seq<(string, nat)>, key: string)
    ensures Keys(Bump(t, key)) == if key in Keys(t) then Keys(t) else Keys(t) + [key]
  {
    if t != [] {
      assert Keys(t) == [t[0].0] + Keys(t[1..]);
      if t[0].0 == key {
        assert Keys([(key, t[0].1 + 1)] + t[1..]) == [key] + Keys(t[1..]);
      } else {
        BumpKeys(t[1..], key);
        assert Keys([t[0]] + Bump(t[1..], key)) == [t[0].0] + Keys(Bump(t[1..], key));
      }
    }
  }

  /** An `ok` line raises its key's count by one (from 0 for a new key) and no other count. */
  lemma {:induction false} BumpLookup(t: seq<(string, nat)>, key: string, k: string)
    ensures Lookup(Bump(t, key), k) == Lookup(t, k) + (if k == key then 1 else 0)
  {
    if t != [] && t[0].0 != key {
      BumpLookup(t[1..], key, k);
    }
  }

  /** A key not yet in the dictionary is added at the end with count 1. */
  lemma {:induction false} BumpNew(t: seq<(string, nat)>, key: string)
    requires key !in Keys(t)
    ensures Bump(t, key) == t + [(key, 1)]
  {
    if t != [] {
      assert Keys(t) == [t[0].0] + Keys(t[1..]);
      BumpNew(t[1..], key);
      HeadTailSnoc(t, (key, 1));
    }
  }

  /** Bumping never duplicates a key. */
  lemma BumpUnique(t: seq<(string, nat)>, key: string)
    requires UniqueKeys(t)
    ensures UniqueKeys(Bump(t, key))
  {
    var r := Bump(t, key);
    BumpKeys(t, key);
    forall i, j | 0 <= i < j < |r| ensures r[i].0 != r[j].0 {
      assert Keys(r)[i] == r[i].0 && Keys(r)[j] == r[j].0;
      if j < |t| {
        assert Keys(t)[i] == t[i].0 && Keys(t)[j] == t[j].0;
      } else {
        assert Keys(t)[i] == t[i].0;
      }
    }
  }

  /** With no key stored twice, looking up a stored key gives the count stored with it. */
  lemma {:induction false} LookupAt(t: seq<(string, nat)>, i: nat)
    requires UniqueKeys(t) && i < |t|
    ensures Lookup(t, t[i].0) == t[i].1
  {
    if i > 0 {
      assert t[0].0 != t[i].0;
      LookupAt(t[1..], i - 1);
    }
  }

  /** The success entries of `print_report`, one per string key, in dictionary order. */
  function SuccessLines(t: seq<(string, nat)>): (lines: seq<Printed>)
    ensures |lines| == |t|
    ensures forall i :: 0 <= i < |t| ==> lines[i] == Success(t[i].0, t[i].1)
  {
    if t == [] then [] else SuccessLines(t[..|t| - 1]) + [Success(t[|t| - 1].0, t[|t| - 1].1)]
  }

  /** The failure entry for `dic[i]`, split on its tab. */
  function FailLine(notes: map<nat, string>, i: nat): Result<Printed, PyError> {
    if i !in notes then Err(KeyError)
    else
      var tmp := Split(notes[i], '\t');
      if |tmp| < 2 then Err(IndexError) else Ok(Fail(tmp[0], tmp[1]))
  }

  /** The failure entries for `dic[0]` .. `dic[n - 1]`, or the first exception. */
  function FailLines(notes: map<nat, string>, n: nat): Result<seq<Printed>, PyError> {
    if n == 0 then Ok([])
    else
      match FailLines(notes, n - 1)
      case Err(e) => Err(e)
      case Ok(fs) =>
        match FailLine(notes, n - 1)
        case Err(e) => Err(e)
        case Ok(f) => Ok(fs + [f])
  }

  /** What `print_report(dic, nb_error)` prints: successes first, then failures. */
  function ReportOf(dic: Dic, nbError: nat): Result<seq<Printed>, PyError> {
    match FailLines(dic.notes, nbError)
    case Err(e) => Err(e)
    case Ok(fs) => Ok(SuccessLines(dic.tallies) + fs)
  }

  /** A `test` line: print the previous group's report unless this is the first, then the header. */
  function ReadTest(st: ReaderState, t: seq<string>): Result<ReaderState, PyError> {
    if st.first then
      if |t| < 3 then Err(IndexError)
      else Ok(ReaderState(st.dic, st.nbError, false, st.out + [Header(t[1], t[2])]))
    else
      match ReportOf(st.dic, st.nbError)
      case Err(e) => Err(e)
      case Ok(rep) =>
        if |t| < 3 then Err(IndexError)
        else Ok(ReaderState(EmptyDic, 0, false, st.out + rep + [Header(t[1], t[2])]))
  }

  /** An `ok` line: count one more trial for its status. */
  function ReadOk(st: ReaderState, t: seq<string>): Result<ReaderState, PyError> {
    if |t| < 2 then Err(IndexError)
    else Ok(st.(dic := st.dic.(tallies := Bump(st.dic.tallies, t[1]))))
  }

  /**
   * A line carrying the reader's fail tag: store note `nb_error`; the intended
   * reader also counts it and keeps the whole rest of the line as codes.
   */
  function ReadFail(reader: Reader, st: ReaderState, t: seq<string>): Result<ReaderState, PyError> {
    if |t| < 3 then Err(IndexError)
    else if reader == AsWritten then
      Ok(st.(dic := st.dic.(notes := st.dic.notes[st.nbError := t[1] + "\t" + t[2]])))
    else
      var note := t[1] + "\t" + Join(t[2..], ' ');
      Ok(ReaderState(st.dic.(notes := st.dic.notes[st.nbError := note]), st.nbError + 1, st.first, st.out))
  }

  /** One iteration of the reader loop on one log line: dispatch on its first token. */
  function Step(reader: Reader, st: ReaderState, line: string): (r: Result<ReaderState, PyError>)
    ensures r.Ok? ==> |st.out| <= |r.value.out| && r.value.out[..|st.out|] == st.out
    ensures r.Ok? && Tokens(line)[0] != "test" ==> r.value.out == st.out && r.value.first == st.first
  {
    var t := Tokens(line);
    if t[0] == "test" then ReadTest(st, t)
    else if t[0] == "ok" then ReadOk(st, t)
    else if t[0] == FailTag(reader) then ReadFail(reader, st, t)
    else Ok(st)
  }

  /** The reader loop over the lines of the log, stopping at the first exception. */
  function Fold(reader: Reader, st: ReaderState, lines: seq<string>): Result<ReaderState, PyError> {
    if lines == [] then Ok(st)
    else
      match Fold(reader, st, lines[..|lines| - 1])
      case Err(e) => Err(e)
      case Ok(s) => Step(reader, s, lines[|lines| - 1])
  }

  /** Everything the report phase prints: the loop, then the final `print_report`. */
  function Reduce(reader: Reader, lines: seq<string>): Result<seq<Printed>, PyError> {
    match Fold(reader, Start, lines)
    case Err(e) => Err(e)
    case Ok(s) =>
      match ReportOf(s.dic, s.nbError)
      case Err(e) => Err(e)
      case Ok(rep) => Ok(s.out + rep)
  }

  /** Reading a log in two parts is reading the first part, then the second from there. */
  lemma {:induction false} FoldAppend(reader: Reader, st: ReaderState, a: seq<string>, b: seq<string>)
    ensures Fold(reader, st, a + b) ==
      match Fold(reader, st, a)
      case Err(e) => Err(e)
      case Ok(s) => Fold(reader, s, b)
  {
    if b == [] {
      assert a + b == a;
    } else {
      var b' := b[..|b| - 1];
      FoldAppend(reader, st, a, b');
      AppendFront(a, b);
    }
  }

  /** Reading one more line from where the reader stands. */
  lemma FoldStep(reader: Reader, st: ReaderState, lines: seq<string>, line: string, s: ReaderState)
    requires Fold(reader, st, lines) == Ok(s)
    ensures Fold(reader, st, lines + [line]) == Step(reader, s, line)
  {
    TakeSnoc(lines, line);
  }

  /** Reading one more line of a log: the prefix read so far, then that line. */
  lemma FoldPrefixStep(reader: Reader, st: ReaderState, lines: seq<string>, i: nat, s: ReaderState)
    requires i < |lines| && Fold(reader, st, lines[..i]) == Ok(s)
    ensures Fold(reader, st, lines[..i + 1]) == Step(reader, s, lines[i])
  {
    PrefixSnoc(lines, i);
    FoldStep(reader, st, lines[..i], lines[i], s);
  }

  /** Once the reader has raised, the rest of the log changes nothing. */
  lemma FoldPrefixErr(reader: Reader, st: ReaderState, lines: seq<string>, k: nat)
    requires k <= |lines| && Fold(reader, st, lines[..k]).Err?
    ensures Fold(reader, st, lines) == Fold(reader, st, lines[..k])
  {
    FoldAppend(reader, st, lines[..k], lines[k..]);
    CutGlue(lines, k);
  }

  /**
   * The source's reader ignores every `failed` line, whatever it holds: it
   * compares the tag with `fail`, so the line changes neither the
   * dictionary, nor `nb_error`, nor the output.
   */
  lemma FailedLineIgnored(st: ReaderState, s: nat, c: string)
    ensures Step(AsWritten, st, Line(Failed(s, c))) == Ok(st)
  {
    TokensFailedTag(s, c);
  }

  /** No entry of the printed output is a failure entry. */
  predicate NoFailure(ps: seq<Printed>) {
    forall i :: 0 <= i < |ps| ==> !ps[i].Fail?
  }

  lemma NoFailureAppend(a: seq<Printed>, b: seq<Printed>)
    requires NoFailure(a) && NoFailure(b)
    ensures NoFailure(a + b)
  {
  }

  /** With `nb_error` at 0, `print_report` prints success entries only. */
  lemma ReportWithoutErrors(dic: Dic)
    ensures ReportOf(dic, 0) == Ok(SuccessLines(dic.tallies))
    ensures NoFailure(SuccessLines(dic.tallies))
  {
    assert SuccessLines(dic.tallies) + [] == SuccessLines(dic.tallies);
  }

  /** A `test` line read by the source's reader keeps `nb_error` at 0 and prints no failure. */
  lemma AsWrittenReadTest(st: ReaderState, t: seq<string>)
    requires st.nbError == 0 && NoFailure(st.out)
    ensures ReadTest(st, t).Ok? ==>
      ReadTest(st, t).value.nbError == 0 && NoFailure(ReadTest(st, t).value.out)
  {
    if |t| >= 3 {
      ReportWithoutErrors(st.dic);
      var rep := SuccessLines(st.dic.tallies);
      NoFailureAppend(st.out, rep);
      NoFailureAppend(st.out + rep, [Header(t[1], t[2])]);
      AppendEmpty(st.out);
    }
  }

  /** One line read by the source's reader keeps `nb_error` at 0 and prints no failure. */
  lemma AsWrittenStep(st: ReaderState, line: string)
    requires st.nbError == 0 && NoFailure(st.out)
    ensures Step(AsWritten, st, line).Ok? ==>
      Step(AsWritten, st, line).value.nbError == 0 && NoFailure(Step(AsWritten, st, line).value.out)
  {
    AsWrittenReadTest(st, Tokens(line));
  }

  lemma {:induction false} AsWrittenFold(st: ReaderState, lines: seq<string>)
    requires st.nbError == 0 && NoFailure(st.out)
    ensures Fold(AsWritten, st, lines).Ok? ==>
      Fold(AsWritten, st, lines).value.nbError == 0 && NoFailure(Fold(AsWritten, st, lines).value.out)
  {
    if lines != [] {
      AsWrittenFold(st, lines[..|lines| - 1]);
      var prev := Fold(AsWritten, st, lines[..|lines| - 1]);
      if prev.Ok? {
        AsWrittenStep(prev.value, lines[|lines| - 1]);
      }
    }
  }

  /**
   * Whatever the log holds, the source's reader prints no failure entry:
   * `nb_error` stays 0, so the failure loop of `print_report` never runs.
   */
  lemma NoFailurePrinted(lines: seq<string>)
    ensures Reduce(AsWritten, lines).Ok? ==> NoFailure(Reduce(AsWritten, lines).value)
  {
    AsWrittenFold(Start, lines);
    var f := Fold(AsWritten, Start, lines);
    if f.Ok? {
      ReportWithoutErrors(f.value.dic);
      NoFailureAppend(f.value.out, SuccessLines(f.value.dic.tallies));
    }
  }

  /** The first loop of `print_report`: one success entry per string key, in order. */
  method SuccessEntries(tallies: seq<(string, nat)>) returns (out: seq<Printed>)
    ensures out == SuccessLines(tallies)
  {
    out := [];
    var k := 0;
    while k < |tallies|
      invariant 0 <= k <= |tallies|
      invariant out == SuccessLines(tallies[..k])
    {
      assert tallies[..k + 1][..k] == tallies[..k];
      out := out + [Success(tallies[k].0, tallies[k].1)];
      k := k + 1;
    }
    assert tallies[..k] == tallies;
  }

  /** The second loop of `print_report`: `dic[i]` split on its tab, for `i` below `nb_error`. */
  method FailureEntries(notes: map<nat, string>, nbError: nat) returns (r: Result<seq<Printed>, PyError>)
    ensures r == FailLines(notes, nbError)
  {
    var fails: seq<Printed> := [];
    var i := 0;
    while i < nbError
      invariant 0 <= i <= nbError
      invariant FailLines(notes, i) == Ok(fails)
    {
      FailLinesNext(notes, i, fails);
      if i !in notes {
        FailLinesStop(notes, i + 1, nbError);
        return Err(KeyError);
      }
      var tmp := Split(notes[i], '\t');
      if |tmp| < 2 {
        FailLinesStop(notes, i + 1, nbError);
        return Err(IndexError);
      }
      fails := fails + [Fail(tmp[0], tmp[1])];
      i := i + 1;
    }
    r := Ok(fails);
  }

  /**
   * `print_report`: the string-keyed entries in order, then `nb_error` failure
   * entries; with `nb_error` at 0 no failure entry and no exception.
   */
  method PrintReport(dic: Dic, nbError: nat) returns (r: Result<seq<Printed>, PyError>)
    ensures r == ReportOf(dic, nbError)
    ensures nbError == 0 ==> r == Ok(SuccessLines(dic.tallies))
  {
    var out := SuccessEntries(dic.tallies);
    var fails := FailureEntries(dic.notes, nbError);
    if fails.Err? {
      return Err(fails.error);
    }
    assert nbError == 0 ==> out + fails.value == out;
    r := Ok(out + fails.value);
  }

  /** The failure loop one entry further: that entry's outcome after the ones before it. */
  lemma FailLinesNext(notes: map<nat, string>, i: nat, fails: seq<Printed>)
    requires FailLines(notes, i) == Ok(fails)
    ensures FailLines(notes, i + 1) ==
      match FailLine(notes, i)
      case Err(e) => Err(e)
      case Ok(f) => Ok(fails + [f])
  {
  }

  /** A failure entry that raises ends the whole failure loop with that exception. */
  lemma {:induction false} FailLinesStop(notes: map<nat, string>, i: nat, n: nat)
    requires 0 < i <= n && FailLines(notes, i).Err?
    ensures FailLines(notes, n) == FailLines(notes, i)
    decreases n - i
  {
    if i < n {
      FailLinesStop(notes, i, n - 1);
    }
  }

  /** One iteration of the reader loop: dispatch on the line's first token. */
  method ReadLine(reader: Reader, st: ReaderState, line: string) returns (r: Result<ReaderState, PyError>)
    ensures r == Step(reader, st, line)
  {
    var dic, nbError, first, out := st.dic, st.nbError, st.first, st.out;
    var t := Tokens(line);
    if t[0] == "test" {
      if !first {
        var rep := PrintReport(dic, nbError);
        if rep.Err? {
          return Err(rep.error);
        }
        out := out + rep.value;
        dic := EmptyDic;
        nbError := 0;
      }
      if |t| < 3 {
        return Err(IndexError);
      }
      out := out + [Header(t[1], t[2])];
      first := false;
    } else if t[0] == "ok" {
      if |t| < 2 {
        return Err(IndexError);
      }
      dic := dic.(tallies := Bump(dic.tallies, t[1]));
    } else if t[0] == FailTag(reader) {
      if |t| < 3 {
        return Err(IndexError);
      }
      if reader == AsWritten {
        dic := dic.(notes := dic.notes[nbError := t[1] + "\t" + t[2]]);
      } else {
        dic := dic.(notes := dic.notes[nbError := t[1] + "\t" + Join(t[2..], ' ')]);
        nbError := nbError + 1;
      }
    }
    r := Ok(ReaderState(dic, nbError, first, out));
  }

  /** The reader loop of `api_conformance_test`: every line in turn, up to the first exception. */
  method ReadLog(reader: Reader, lines: seq<string>) returns (r: Result<ReaderState, PyError>)
    ensures r == Fold(reader, Start, lines)
  {
    var st := Start;
    var i := 0;
    while i < |lines|
      invariant 0 <= i <= |lines|
      invariant Fold(reader, Start, lines[..i]) == Ok(st)
    {
      FoldPrefixStep(reader, Start, lines, i, st);
      var next := ReadLine(reader, st, lines[i]);
      if next.Err? {
        FoldPrefixErr(reader, Start, lines, i + 1);
        return next;
      }
      st := next.value;
      i := i + 1;
    }
    TakeAll(lines);
    r := Ok(st);
  }

  /** The reader loop followed by the last `print_report`. */
  method ReduceLog(reader: Reader, lines: seq<string>) returns (r: Result<seq<Printed>, PyError>)
    ensures r == Reduce(reader, lines)
  {
    var read := ReadLog(reader, lines);
    if read.Err? {
      return Err(read.error);
    }
    var st := read.value;
    var rep := PrintReport(st.dic, st.nbError);
    if rep.Err? {
      return Err(rep.error);
    }
    r := Ok(st.out + rep.value);
  }
}
