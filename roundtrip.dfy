/**
 * The writer/reader round trip: a log made of operation groups (a `test`
 * header followed by that operation's trial records) is read back by the
 * report phase into one header per operation, in log order, followed by one
 * success entry per distinct passing status with the number of trials that
 * returned it.
 */
module RoundTrip {
  import opened Seqs
  import opened Wrappers
  import opened Text
  import opened Log
  import opened LogFile
  import opened Report

  /** One visited operation's stretch of the log: its header, then its trial records. */
  datatype Group = Group(verb: string, path: string, trials: seq<Record>)

  /** Documented codes as written into a `failed` line stay on that line and hold no tab. */
  predicate CleanCodes(c: string) {
    '\n' !in c && '\r' !in c && '\t' !in c
  }

  /** A record the per-trial code writes: `ok` or `failed`, never a header. */
  predicate CleanTrial(r: Record) {
    match r
    case Test(_, _) => false
    case Passed(_) => true
    case Failed(_, c) => CleanCodes(c)
  }

  /** A group as the run loop writes it, with a verb and path free of spaces and newlines. */
  predicate CleanGroup(g: Group) {
    Plain(g.verb) && Plain(g.path) && forall i :: 0 <= i < |g.trials| ==> CleanTrial(g.trials[i])
  }

  function GroupRecords(g: Group): seq<Record> {
    [Test(g.verb, g.path)] + g.trials
  }

  /** The records of several groups, one after the other. */
  function GroupsRecords(gs: seq<Group>): seq<Record> {
    if gs == [] then [] else GroupsRecords(gs[..|gs| - 1]) + GroupRecords(gs[|gs| - 1])
  }

  /** The statuses of the passing trials, in order. */
  function PassedStatuses(trials: seq<Record>): (ss: seq<nat>)
    ensures |ss| <= |trials|
  {
    if trials == [] then []
    else
      var last := trials[|trials| - 1];
      PassedStatuses(trials[..|trials| - 1]) + (if last.Passed? then [last.status] else [])
  }

  /** Status and documented codes of the failing trials, in order. */
  function FailedPairs(trials: seq<Record>): seq<(nat, string)> {
    if trials == [] then []
    else
      var last := trials[|trials| - 1];
      FailedPairs(trials[..|trials| - 1]) + (if last.Failed? then [(last.status, last.codes)] else [])
  }

  /** One more passing trial adds its status to the passing ones and no failure. */
  lemma PassedSnoc(trials: seq<Record>, status: nat)
    ensures PassedStatuses(trials + [Passed(status)]) == PassedStatuses(trials) + [status]
    ensures FailedPairs(trials + [Passed(status)]) == FailedPairs(trials)
  {
    assert (trials + [Passed(status)])[..|trials|] == trials;
    assert FailedPairs(trials) + [] == FailedPairs(trials);
  }

  /** One more failing trial adds its status and codes to the failures and no passing status. */
  lemma FailedSnoc(trials: seq<Record>, status: nat, c: string)
    ensures PassedStatuses(trials + [Failed(status, c)]) == PassedStatuses(trials)
    ensures FailedPairs(trials + [Failed(status, c)]) == FailedPairs(trials) + [(status, c)]
  {
    assert (trials + [Failed(status, c)])[..|trials|] == trials;
    assert PassedStatuses(trials) + [] == PassedStatuses(trials);
  }

  /** The string-keyed part of `dic` after reading `ok` lines for these statuses. */
  function TallyOf(ss: seq<nat>): seq<(string, nat)> {
    if ss == [] then [] else Bump(TallyOf(ss[..|ss| - 1]), NatToString(ss[|ss| - 1]))
  }

  /** The integer-keyed part of `dic` after reading these trials. */
  function NotesOf(reader: Reader, trials: seq<Record>): map<nat, string> {
    match reader
    case AsWritten => map[]
    case Intended =>
      var fs := FailedPairs(trials);
      map i | 0 <= i < |fs| :: NatToString(fs[i].0) + "\t" + fs[i].1
  }

  function NbErrorOf(reader: Reader, trials: seq<Record>): nat {
    match reader
    case AsWritten => 0
    case Intended => |FailedPairs(trials)|
  }

  /** The dictionary once a group's trial lines have been read. */
  function DicOf(reader: Reader, g: Group): Dic {
    Dic(TallyOf(PassedStatuses(g.trials)), NotesOf(reader, g.trials))
  }

  function FailureReport(fs: seq<(nat, string)>): seq<Printed> {
    seq(|fs|, i requires 0 <= i < |fs| => Fail(NatToString(fs[i].0), fs[i].1))
  }

  /** The header the reader prints for a group. */
  function HeaderOf(g: Group): Printed {
    Header("[" + g.verb + "]", g.path)
  }

  /**
   * What `print_report` prints for a group: one success entry per distinct
   * passing status, and, for the intended reader only, one failure entry per
   * failing trial.
   */
  function Body(reader: Reader, g: Group): seq<Printed> {
    SuccessLines(TallyOf(PassedStatuses(g.trials))) +
    (if reader == Intended then FailureReport(FailedPairs(g.trials)) else [])
  }

  /** The expected report: each group's header and body, in log order. */
  function Reports(reader: Reader, gs: seq<Group>): seq<Printed> {
    if gs == [] then []
    else Reports(reader, gs[..|gs| - 1]) + [HeaderOf(gs[|gs| - 1])] + Body(reader, gs[|gs| - 1])
  }

  /**
   * Tally per code: the count the reader keeps for the decimal text of `c`
   * is the number of passing trials that returned `c`.
   */
  lemma {:induction false} TallyCounts(ss: seq<nat>, c: nat)
    ensures Lookup(TallyOf(ss), NatToString(c)) == multiset(ss)[c]
  {
    if ss != [] {
      var init, last := ss[..|ss| - 1], ss[|ss| - 1];
      TallyCounts(init, c);
      assert ss == init + [last];
      assert multiset(ss) == multiset(init) + multiset{last};
      assert TallyOf(ss) == Bump(TallyOf(init), NatToString(last));
      BumpLookup(TallyOf(init), NatToString(last), NatToString(c));
      NatToStringInjective(last, c);
    }
  }

  /** Every key of the tally is the decimal text of a passing status. */
  lemma {:induction false} TallyKeyStatus(ss: seq<nat>, i: nat)
    requires i < |TallyOf(ss)|
    ensures exists s :: s in ss && TallyOf(ss)[i].0 == NatToString(s)
  {
    var init, last := ss[..|ss| - 1], ss[|ss| - 1];
    var t := TallyOf(init);
    assert ss == init + [last];
    BumpKeys(t, NatToString(last));
    assert Keys(TallyOf(ss))[i] == TallyOf(ss)[i].0;
    if i < |t| {
      TallyKeyStatus(init, i);
      assert Keys(t)[i] == t[i].0;
    } else {
      assert TallyOf(ss)[i].0 == NatToString(last);
    }
  }

  /**
   * Each success entry printed for a group names a passing status and
   * carries the number of trials that returned it.
   */
  lemma PrintedTally(ss: seq<nat>, i: nat)
    requires i < |TallyOf(ss)|
    ensures exists s :: s in ss && SuccessLines(TallyOf(ss))[i] == Success(NatToString(s), multiset(ss)[s])
  {
    TallyKeyStatus(ss, i);
    var s :| s in ss && TallyOf(ss)[i].0 == NatToString(s);
    TallyUnique(ss);
    LookupAt(TallyOf(ss), i);
    TallyCounts(ss, s);
  }

  /** Reading one more `ok` line bumps the tally of its status's decimal text. */
  lemma TallySnoc(ss: seq<nat>, x: nat)
    ensures TallyOf(ss + [x]) == Bump(TallyOf(ss), NatToString(x))
  {
    assert (ss + [x])[..|ss|] == ss;
  }

  /** A status has an entry in the tally exactly when some passing trial returned it. */
  lemma {:induction false} TallyKeys(ss: seq<nat>, s: nat)
    ensures s in ss <==> NatToString(s) in Keys(TallyOf(ss))
  {
    if ss != [] {
      var init, last := ss[..|ss| - 1], ss[|ss| - 1];
      TallyKeys(init, s);
      assert ss == init + [last];
      TallySnoc(init, last);
      BumpKeys(TallyOf(init), NatToString(last));
      NatToStringInjective(s, last);
    }
  }

  /** No key appears twice in the tally. */
  lemma {:induction false} TallyUnique(ss: seq<nat>)
    ensures UniqueKeys(TallyOf(ss))
  {
    if ss != [] {
      var init, last := ss[..|ss| - 1], ss[|ss| - 1];
      TallyUnique(init);
      assert ss == init + [last];
      TallySnoc(init, last);
      BumpUnique(TallyOf(init), NatToString(last));
    }
  }

  /** An `ok` line bumps the tally of its status's decimal text and nothing else. */
  lemma StepPassed(reader: Reader, st: ReaderState, status: nat)
    ensures Step(reader, st, Line(Passed(status))) ==
      Ok(st.(dic := st.dic.(tallies := Bump(st.dic.tallies, NatToString(status)))))
  {
    TokensPassed(status);
  }

  /** With the intended reader, a line read as `failed`, a status and the codes' pieces adds a note and counts it. */
  lemma StepFailedTokens(st: ReaderState, line: string, d: string, c: string)
    requires Tokens(line) == ["failed", d] + Split(c, ' ')
    ensures Step(Intended, st, line) ==
      Ok(ReaderState(st.dic.(notes := st.dic.notes[st.nbError := d + "\t" + c]), st.nbError + 1, st.first, st.out))
  {
    ReadFailIntended(st, Tokens(line), d, c);
  }

  /** The intended reader's fail branch on the tokens of a `failed` record. */
  lemma ReadFailIntended(st: ReaderState, t: seq<string>, d: string, c: string)
    requires t == ["failed", d] + Split(c, ' ')
    ensures ReadFail(Intended, st, t) ==
      Ok(ReaderState(st.dic.(notes := st.dic.notes[st.nbError := d + "\t" + c]), st.nbError + 1, st.first, st.out))
  {
    DropPair("failed", d, Split(c, ' '));
  }

  /** With the intended reader, a `failed` line adds note `nb_error` and counts it. */
  lemma StepFailedIntended(st: ReaderState, status: nat, c: string)
    requires CleanCodes(c)
    ensures Step(Intended, st, Line(Failed(status, c))) ==
      Ok(ReaderState(st.dic.(notes := st.dic.notes[st.nbError := NatToString(status) + "\t" + c]),
                     st.nbError + 1, st.first, st.out))
  {
    TokensFailed(status, c);
    StepFailedTokens(st, Line(Failed(status, c)), NatToString(status), c);
  }

  /** The reader state once a group's trial lines have been read from `st`. */
  function AfterTrials(reader: Reader, st: ReaderState, trials: seq<Record>): ReaderState {
    st.(dic := Dic(TallyOf(PassedStatuses(trials)), NotesOf(reader, trials)),
        nbError := NbErrorOf(reader, trials))
  }

  /** Reading one more trial line moves the state on by that trial. */
  lemma ReadTrial(reader: Reader, st: ReaderState, init: seq<Record>, last: Record)
    requires CleanTrial(last)
    ensures Step(reader, AfterTrials(reader, st, init), Line(last)) ==
      Ok(AfterTrials(reader, st, init + [last]))
  {
    match last
    case Passed(status) => ReadPassedTrial(reader, st, init, status);
    case Failed(status, c) =>
      if reader == AsWritten {
        ReadFailedTrialAsWritten(st, init, status, c);
      } else {
        ReadFailedTrialIntended(st, init, status, c);
      }
  }

  lemma ReadPassedTrial(reader: Reader, st: ReaderState, init: seq<Record>, status: nat)
    ensures Step(reader, AfterTrials(reader, st, init), Line(Passed(status))) ==
      Ok(AfterTrials(reader, st, init + [Passed(status)]))
  {
    PassedSnoc(init, status);
    TallySnoc(PassedStatuses(init), status);
    StepPassed(reader, AfterTrials(reader, st, init), status);
  }

  lemma ReadFailedTrialAsWritten(st: ReaderState, init: seq<Record>, status: nat, c: string)
    ensures Step(AsWritten, AfterTrials(AsWritten, st, init), Line(Failed(status, c))) ==
      Ok(AfterTrials(AsWritten, st, init + [Failed(status, c)]))
  {
    FailedSnoc(init, status, c);
    FailedLineIgnored(AfterTrials(AsWritten, st, init), status, c);
  }

  lemma ReadFailedTrialIntended(st: ReaderState, init: seq<Record>, status: nat, c: string)
    requires CleanCodes(c)
    ensures Step(Intended, AfterTrials(Intended, st, init), Line(Failed(status, c))) ==
      Ok(AfterTrials(Intended, st, init + [Failed(status, c)]))
  {
    StepFailedIntended(AfterTrials(Intended, st, init), status, c);
    AfterFailedIntended(st, init, status, c);
  }

  /** For the intended reader, a failing trial adds note `nb_error` and counts it. */
  lemma AfterFailedIntended(st: ReaderState, init: seq<Record>, status: nat, c: string)
    ensures var a := AfterTrials(Intended, st, init);
      AfterTrials(Intended, st, init + [Failed(status, c)]) ==
      ReaderState(a.dic.(notes := a.dic.notes[a.nbError := NatToString(status) + "\t" + c]),
                  a.nbError + 1, a.first, a.out)
  {
    FailedSnoc(init, status, c);
    NotesAppend(init, status, c);
  }

  /** A failing trial adds the next numbered note. */
  lemma NotesAppend(init: seq<Record>, status: nat, c: string)
    ensures NotesOf(Intended, init + [Failed(status, c)]) ==
      NotesOf(Intended, init)[|FailedPairs(init)| := NatToString(status) + "\t" + c]
    ensures |FailedPairs(init + [Failed(status, c)])| == |FailedPairs(init)| + 1
  {
    FailedSnoc(init, status, c);
  }

  /** Reading the line of one more record from where the reader stands. */
  lemma ReadOneMore(reader: Reader, st: ReaderState, init: seq<Record>, last: Record, s0: ReaderState, s1: ReaderState)
    requires Fold(reader, st, LinesOf(init)) == Ok(s0)
    requires Step(reader, s0, Line(last)) == Ok(s1)
    ensures Fold(reader, st, LinesOf(init + [last])) == Ok(s1)
  {
    LinesSnoc(init, last);
    FoldStep(reader, st, LinesOf(init), Line(last), s0);
  }

  /** Before any trial line, the state is the one the group started from. */
  lemma AfterNoTrials(reader: Reader, st: ReaderState)
    requires st.dic == EmptyDic && st.nbError == 0
    ensures AfterTrials(reader, st, []) == st
  {
    assert NotesOf(reader, []) == map[];
  }

  /** One more trial line, read after the ones before it. */
  lemma ReadTrialsStep(reader: Reader, st: ReaderState, init: seq<Record>, last: Record)
    requires CleanTrial(last)
    requires Fold(reader, st, LinesOf(init)) == Ok(AfterTrials(reader, st, init))
    ensures Fold(reader, st, LinesOf(init + [last])) == Ok(AfterTrials(reader, st, init + [last]))
  {
    ReadTrial(reader, st, init, last);
    ReadOneMore(reader, st, init, last, AfterTrials(reader, st, init), AfterTrials(reader, st, init + [last]));
  }

  /** A non-empty trial sequence is its front followed by its last trial. */
  lemma ReadTrialsSplit(reader: Reader, st: ReaderState, trials: seq<Record>)
    requires trials != []
    requires Fold(reader, st, LinesOf(trials[..|trials| - 1] + [trials[|trials| - 1]])) ==
      Ok(AfterTrials(reader, st, trials[..|trials| - 1] + [trials[|trials| - 1]]))
    ensures Fold(reader, st, LinesOf(trials)) == Ok(AfterTrials(reader, st, trials))
  {
    FrontLast(trials);
  }


  /** Reading the trial lines of one group, starting from an empty dictionary. */
  lemma {:induction false} ReadTrials(reader: Reader, st: ReaderState, trials: seq<Record>)
    requires st.dic == EmptyDic && st.nbError == 0
    requires forall i :: 0 <= i < |trials| ==> CleanTrial(trials[i])
    ensures Fold(reader, st, LinesOf(trials)) == Ok(AfterTrials(reader, st, trials))
  {
    if trials == [] {
      AfterNoTrials(reader, st);
    } else {
      ReadTrials(reader, st, trials[..|trials| - 1]);
      ReadTrialsStep(reader, st, trials[..|trials| - 1], trials[|trials| - 1]);
      ReadTrialsSplit(reader, st, trials);
    }
  }

  /** A group's header line: print the previous group's report unless it is the first. */
  lemma ReadHeader(reader: Reader, st: ReaderState, g: Group, rep: seq<Printed>)
    requires Plain(g.verb) && Plain(g.path)
    requires st.first ==> st.dic == EmptyDic && st.nbError == 0 && rep == []
    requires !st.first ==> ReportOf(st.dic, st.nbError) == Ok(rep)
    ensures Step(reader, st, Line(Test(g.verb, g.path))) ==
      Ok(ReaderState(EmptyDic, 0, false, st.out + rep + [HeaderOf(g)]))
  {
    TokensTest(g.verb, g.path);
    assert st.first ==> st.out + rep == st.out;
  }

  /** Reading one whole group. */
  lemma ReadGroup(reader: Reader, st: ReaderState, g: Group, rep: seq<Printed>)
    requires CleanGroup(g)
    requires st.first ==> st.dic == EmptyDic && st.nbError == 0 && rep == []
    requires !st.first ==> ReportOf(st.dic, st.nbError) == Ok(rep)
    ensures Fold(reader, st, LinesOf(GroupRecords(g))) ==
      Ok(ReaderState(DicOf(reader, g), NbErrorOf(reader, g.trials), false, st.out + rep + [HeaderOf(g)]))
  {
    var header := Line(Test(g.verb, g.path));
    LinesOfAppend([Test(g.verb, g.path)], g.trials);
    assert LinesOf([Test(g.verb, g.path)]) == [header];
    FoldAppend(reader, st, [header], LinesOf(g.trials));
    assert [header][..0] == [];
    ReadHeader(reader, st, g, rep);
    ReadTrials(reader, ReaderState(EmptyDic, 0, false, st.out + rep + [HeaderOf(g)]), g.trials);
  }

  /** One failure entry: the note splits at its only tab into status and codes. */
  lemma FailLineOfNote(notes: map<nat, string>, i: nat, d: string, c: string)
    requires i in notes && notes[i] == d + "\t" + c
    requires '\t' !in d && '\t' !in c
    ensures FailLine(notes, i) == Ok(Fail(d, c))
  {
    assert d + "\t" + c == Join([d, c], '\t');
    SplitJoin([d, c], '\t');
  }

  /** One more failure: the report grows by that failure's entry. */
  lemma FailureReportSnoc(fs: seq<(nat, string)>, n: nat)
    requires 0 < n <= |fs|
    ensures FailureReport(fs[..n]) ==
      FailureReport(fs[..n - 1]) + [Fail(NatToString(fs[n - 1].0), fs[n - 1].1)]
  {
  }

  /**
   * The failure entries printed from notes numbered after the failures `fs`:
   * the first `n` of them, in order.
   */
  lemma {:induction false} FailLinesOfPairs(notes: map<nat, string>, fs: seq<(nat, string)>, n: nat)
    requires n <= |fs|
    requires forall i :: 0 <= i < |fs| ==> i in notes && notes[i] == NatToString(fs[i].0) + "\t" + fs[i].1
    requires forall i :: 0 <= i < |fs| ==> CleanCodes(fs[i].1)
    ensures FailLines(notes, n) == Ok(FailureReport(fs[..n]))
  {
    if n > 0 {
      FailLinesOfPairs(notes, fs, n - 1);
      NoSpaceInDecimal(fs[n - 1].0);
      FailLineOfNote(notes, n - 1, NatToString(fs[n - 1].0), fs[n - 1].1);
      FailureReportSnoc(fs, n);
    } else {
      assert FailureReport(fs[..0]) == [];
    }
  }

  /** The failure entries `print_report` prints from the intended reader's notes. */
  lemma FailLinesOfNotes(g: Group)
    requires CleanGroup(g)
    ensures FailLines(NotesOf(Intended, g.trials), |FailedPairs(g.trials)|) ==
      Ok(FailureReport(FailedPairs(g.trials)))
  {
    var fs := FailedPairs(g.trials);
    FailedPairsClean(g.trials);
    FailLinesOfPairs(NotesOf(Intended, g.trials), fs, |fs|);
    TakeAll(fs);
  }

  /** The codes of every failing trial of a clean group are clean. */
  lemma {:induction false} FailedPairsClean(trials: seq<Record>)
    requires forall i :: 0 <= i < |trials| ==> CleanTrial(trials[i])
    ensures forall i :: 0 <= i < |FailedPairs(trials)| ==> CleanCodes(FailedPairs(trials)[i].1)
  {
    if trials != [] {
      FailedPairsClean(trials[..|trials| - 1]);
      assert CleanTrial(trials[|trials| - 1]);
    }
  }

  /** The final `print_report` of a group prints exactly its expected body. */
  lemma GroupBody(reader: Reader, g: Group)
    requires CleanGroup(g)
    ensures ReportOf(DicOf(reader, g), NbErrorOf(reader, g.trials)) == Ok(Body(reader, g))
  {
    if reader == Intended {
      var fs := FailedPairs(g.trials);
      FailLinesOfNotes(g);
    } else {
      assert SuccessLines(TallyOf(PassedStatuses(g.trials))) + [] == Body(reader, g);
    }
  }

  /** Reading one more group after a log whose lines leave the reader in `s0`. */
  lemma ReadMoreGroup(reader: Reader, a: seq<Record>, g: Group, s0: ReaderState, rep: seq<Printed>)
    requires CleanGroup(g)
    requires Fold(reader, Start, LinesOf(a)) == Ok(s0)
    requires s0.first ==> s0.dic == EmptyDic && s0.nbError == 0 && rep == []
    requires !s0.first ==> ReportOf(s0.dic, s0.nbError) == Ok(rep)
    ensures Fold(reader, Start, LinesOf(a + GroupRecords(g))) ==
      Ok(ReaderState(DicOf(reader, g), NbErrorOf(reader, g.trials), false, s0.out + rep + [HeaderOf(g)]))
  {
    LinesOfAppend(a, GroupRecords(g));
    FoldAppend(reader, Start, LinesOf(a), LinesOf(GroupRecords(g)));
    ReadGroup(reader, s0, g, rep);
  }

  /** The state the reader is in after the lines of one or more groups. */
  function AfterGroups(reader: Reader, gs: seq<Group>): ReaderState
    requires gs != []
  {
    var g := gs[|gs| - 1];
    ReaderState(DicOf(reader, g), NbErrorOf(reader, g.trials), false,
                Reports(reader, gs[..|gs| - 1]) + [HeaderOf(g)])
  }

  /** One more group's expected report. */
  lemma ReportsSnoc(reader: Reader, gs: seq<Group>)
    requires gs != []
    ensures Reports(reader, gs) ==
      AfterGroups(reader, gs).out + Body(reader, gs[|gs| - 1])
  {
  }

  /** The lines of the first group, read from the start. */
  lemma ReadFirstGroup(reader: Reader, gs: seq<Group>)
    requires |gs| == 1 && CleanGroup(gs[0])
    ensures Fold(reader, Start, LinesOf(GroupsRecords(gs))) == Ok(AfterGroups(reader, gs))
  {
    assert LinesOf([]) == [];
    ReadMoreGroup(reader, [], gs[0], Start, []);
    assert Start.out + [] == [];
  }

  /** The lines of one more group, read after those of the groups before it. */
  lemma ReadNextGroup(reader: Reader, gs: seq<Group>)
    requires |gs| >= 2 && CleanGroup(gs[|gs| - 1]) && CleanGroup(gs[|gs| - 2])
    requires Fold(reader, Start, LinesOf(GroupsRecords(gs[..|gs| - 1]))) ==
      Ok(AfterGroups(reader, gs[..|gs| - 1]))
    ensures Fold(reader, Start, LinesOf(GroupsRecords(gs))) == Ok(AfterGroups(reader, gs))
  {
    var init := gs[..|gs| - 1];
    var prev := init[|init| - 1];
    GroupBody(reader, prev);
    ReadMoreGroup(reader, GroupsRecords(init), gs[|gs| - 1], AfterGroups(reader, init), Body(reader, prev));
    ReportsSnoc(reader, init);
  }

  /** Every record of clean groups is written as one whole line. */
  lemma {:induction false} GroupsUnbroken(gs: seq<Group>)
    requires forall i :: 0 <= i < |gs| ==> CleanGroup(gs[i])
    ensures forall j :: 0 <= j < |GroupsRecords(gs)| ==> Unbroken(GroupsRecords(gs)[j])
  {
    if gs != [] {
      var init, g := gs[..|gs| - 1], gs[|gs| - 1];
      GroupsUnbroken(init);
      var a, b := GroupsRecords(init), GroupRecords(g);
      forall j | 0 <= j < |b| ensures Unbroken(b[j]) {
        if j > 0 {
          assert b[j] == g.trials[j - 1];
          assert CleanTrial(g.trials[j - 1]);
        }
      }
      forall j | 0 <= j < |a + b| ensures Unbroken((a + b)[j]) {
        if j >= |a| {
          assert (a + b)[j] == b[j - |a|];
        }
      }
    }
  }

  /** The reader state after the lines of one or more groups. */
  lemma {:induction false} ReadGroups(reader: Reader, gs: seq<Group>)
    requires |gs| >= 1
    requires forall i :: 0 <= i < |gs| ==> CleanGroup(gs[i])
    ensures Fold(reader, Start, LinesOf(GroupsRecords(gs))) == Ok(AfterGroups(reader, gs))
  {
    if |gs| == 1 {
      ReadFirstGroup(reader, gs);
    } else {
      ReadGroups(reader, gs[..|gs| - 1]);
      ReadNextGroup(reader, gs);
    }
  }

  /**
   * Writer/reader round trip: reading back the log of any sequence of clean
   * groups prints, for each group in log order, its header and then one
   * success entry per distinct passing status (with the intended reader, its
   * failures after them), and raises nothing.
   */
  lemma RoundTripReport(reader: Reader, gs: seq<Group>)
    requires forall i :: 0 <= i < |gs| ==> CleanGroup(gs[i])
    ensures ReadBack(LinesOf(GroupsRecords(gs))) == LinesOf(GroupsRecords(gs))
    ensures Reduce(reader, ReadBack(LinesOf(GroupsRecords(gs)))) == Ok(Reports(reader, gs))
  {
    GroupsUnbroken(gs);
    LinesWhole(GroupsRecords(gs));
    ReadBackWhole(LinesOf(GroupsRecords(gs)));
    if gs == [] {
      assert SuccessLines([]) + [] == [];
    } else {
      ReadGroups(reader, gs);
      GroupBody(reader, gs[|gs| - 1]);
    }
  }
}
