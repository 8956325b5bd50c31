/**
 * Concrete runs against one operation, `GET /items` documenting 200 and 404,
 * with three trials per operation.
 */
module Scenarios {
  import opened Seqs
  import opened Wrappers
  import opened Text
  import opened Log
  import opened LogFile
  import opened Report
  import opened RoundTrip
  import opened Conformance

  const Items: Operation := Operation("GET", "/items", [], {200, 404}, "{200, 404}")

  /** An operation with an untyped parameter. */
  const Search: Operation := Operation("GET", "/search", [Param("q", None)], {200}, "{200}")

  /** The decimal text of the statuses the scenarios use. */
  lemma Decimals()
    ensures NatToString(200) == "200" && NatToString(404) == "404" && NatToString(500) == "500"
  {
    ThreeDigits(200, 2, 0, 0);
    ThreeDigits(404, 4, 0, 4);
    ThreeDigits(500, 5, 0, 0);
  }

  /** The decimal text of a three-digit number. */
  lemma ThreeDigits(n: nat, a: nat, b: nat, c: nat)
    requires 0 < a < 10 && b < 10 && c < 10 && n == 100 * a + 10 * b + c
    ensures NatToString(n) == [DigitChar(a), DigitChar(b), DigitChar(c)]
  {
    var m := 10 * a + b;
    assert n / 10 == m && n % 10 == c;
    assert m / 10 == a && m % 10 == b;
    assert NatToString(a) == [DigitChar(a)];
    assert NatToString(m) == [DigitChar(a)] + [DigitChar(b)];
    assert NatToString(n) == NatToString(m) + [DigitChar(c)];
  }

  /** The log of a run's first operation. */
  lemma FirstOperationLog(ops: seq<Operation>, bs: seq<Behaviour>, numTests: nat)
    requires |bs| == |ops| && |ops| >= 1
    ensures RunLog(ops, bs, numTests, 1) ==
      LinesOf([Test(ops[0].verb, ops[0].path)] + GroupOf(ops[0], bs[0], numTests).trials)
  {
    AppendEmpty(LinesOf(GroupRecords(GroupOf(ops[0], bs[0], numTests))));
  }

  /** The report of a single group: its header, then its body. */
  lemma OneGroupReport(reader: Reader, g: Group)
    ensures Reports(reader, [g]) == [HeaderOf(g)] + Body(reader, g)
  {
    assert [g][..0] == [];
  }

  /** The groups of a run of one operation. */
  lemma SingleGroup(op: Operation, b: Behaviour, numTests: nat)
    ensures Groups([op], [b], numTests) == [GroupOf(op, b, numTests)]
  {
  }

  /** A run of one clean operation that does not stop prints that operation's header and body. */
  lemma SingleOperationRun(op: Operation, b: Behaviour, numTests: nat, contOnErr: bool,
                           header: Printed, body: seq<Printed>)
    requires CleanOperation(op) && !Stops(op, b, numTests, contOnErr)
    requires HeaderOf(GroupOf(op, b, numTests)) == header && Body(AsWritten, GroupOf(op, b, numTests)) == body
    ensures Visited([op], [b], numTests, contOnErr) == 1
    ensures ReportPhase(AsWritten, true, true, RunLog([op], [b], numTests, 1)) == (Completed, [header] + body)
  {
    assert FirstStop([op], [b], numTests, contOnErr) == 1;
    CleanRunReport(AsWritten, [op], [b], numTests, contOnErr);
    SingleGroup(op, b, numTests);
    OneGroupReport(AsWritten, GroupOf(op, b, numTests));
  }

  /** A group's body from its tally and its failure entries. */
  lemma GroupBodyFrom(g: Group, tally: seq<(string, nat)>, failures: seq<Printed>)
    requires TallyOf(PassedStatuses(g.trials)) == tally
    requires FailureReport(FailedPairs(g.trials)) == failures
    ensures Body(AsWritten, g) == SuccessLines(tally)
    ensures Body(Intended, g) == SuccessLines(tally) + failures
  {
    assert SuccessLines(tally) + [] == SuccessLines(tally);
  }

  lemma CleanItems()
    ensures CleanOperation(Items)
  {
    assert Plain(Items.verb) && Plain(Items.path) && CleanCodes(Items.codesText);
  }

  lemma CleanSearch()
    ensures CleanOperation(Search)
  {
    assert Plain(Search.verb) && Plain(Search.path) && CleanCodes(Search.codesText);
  }

  lemma Clean()
    ensures CleanOperation(Items) && CleanOperation(Search)
  {
    CleanItems();
    CleanSearch();
  }

  /** The header the reader prints for an operation's group. */
  lemma GroupHeader(op: Operation, b: Behaviour, verb: string, path: string)
    requires op.verb == verb && op.path == path
    ensures HeaderOf(GroupOf(op, b, 3)) == Header("[" + verb + "]", path)
  {
  }

  lemma SearchHeaderLine()
    ensures Line(Test("GET", "/search")) == "test [GET] /search\n"
  {
  }

  lemma Headers(b: Behaviour)
    ensures HeaderOf(GroupOf(Items, b, 3)) == Header("[GET]", "/items")
    ensures HeaderOf(GroupOf(Search, b, 3)) == Header("[GET]", "/search")
    ensures Line(Test(Search.verb, Search.path)) == "test [GET] /search\n"
  {
    GroupHeader(Items, b, "GET", "/items");
    GroupHeader(Search, b, "GET", "/search");
    SearchHeaderLine();
  }

  /** `GET /items` has no parameter, so it runs every status of a short enough answer list. */
  lemma ItemsTrials(b: Behaviour)
    requires !b.raisesValueError && |b.statuses| <= 3
    ensures Trials(Items, b, 3) == b.statuses
  {
    assert !Skipped(Items);
  }

  lemma TwoRecords(op: Operation, ts: seq<nat>)
    requires |ts| == 2
    ensures TrialRecords(op, ts) == [TrialRecord(op, ts[0]), TrialRecord(op, ts[1])]
  {
  }

  lemma ThreeRecords(op: Operation, ts: seq<nat>)
    requires |ts| == 3
    ensures TrialRecords(op, ts) == [TrialRecord(op, ts[0]), TrialRecord(op, ts[1]), TrialRecord(op, ts[2])]
  {
  }

  lemma AllDocumentedTrials(b: Behaviour)
    requires b == Behaviour([200, 200, 404], false)
    ensures GroupOf(Items, b, 3).trials == [Passed(200), Passed(200), Passed(404)]
    ensures !Stops(Items, b, 3, false)
  {
    ItemsTrials(b);
    ThreeRecords(Items, b.statuses);
    FailsSome(Items, b.statuses);
    assert !Fails(Items, b.statuses);
  }

  lemma AllDocumentedStatuses(t: seq<Record>)
    requires t == [Passed(200), Passed(200), Passed(404)]
    ensures PassedStatuses(t) == [200, 200, 404]
    ensures FailedPairs(t) == []
  {
    Snocs(t[0], t[1], t[2]);
    PassedSnoc([], t[0].status);
    PassedSnoc([t[0]], t[1].status);
    PassedSnoc([t[0], t[1]], t[2].status);
  }

  /** The three counts of the reader on the `ok` lines 200, 200, 404. */
  lemma AllDocumentedBumps()
    ensures Bump([], "200") == [("200", 1)]
    ensures Bump([("200", 1)], "200") == [("200", 2)]
    ensures Bump([("200", 2)], "404") == [("200", 2), ("404", 1)]
  {
    assert [("200", 2)][1..] == [];
    assert Bump([("200", 2)][1..], "404") == [("404", 1)];
  }

  lemma AllDocumentedTally(ss: seq<nat>)
    requires ss == [200, 200, 404]
    ensures TallyOf(ss) == [("200", 2), ("404", 1)]
    ensures SuccessLines([("200", 2), ("404", 1)]) == [Success("200", 2), Success("404", 1)]
  {
    Decimals();
    AllDocumentedBumps();
    Snocs(ss[0], ss[1], ss[2]);
    TallySnoc([], ss[0]);
    TallySnoc([ss[0]], ss[1]);
    TallySnoc([ss[0], ss[1]], ss[2]);
  }

  lemma AllDocumentedBody(g: Group)
    requires g.trials == [Passed(200), Passed(200), Passed(404)]
    ensures Body(AsWritten, g) == [Success("200", 2), Success("404", 1)]
  {
    AllDocumentedStatuses(g.trials);
    AllDocumentedTally(PassedStatuses(g.trials));
    GroupBodyFrom(g, [("200", 2), ("404", 1)], []);
  }

  lemma AllDocumentedFacts(b: Behaviour)
    requires b == Behaviour([200, 200, 404], false)
    ensures CleanOperation(Items) && !Stops(Items, b, 3, false)
    ensures HeaderOf(GroupOf(Items, b, 3)) == Header("[GET]", "/items")
    ensures Body(AsWritten, GroupOf(Items, b, 3)) == [Success("200", 2), Success("404", 1)]
  {
    Clean();
    AllDocumentedTrials(b);
    AllDocumentedBody(GroupOf(Items, b, 3));
    Headers(b);
  }

  lemma AllDocumentedRun(b: Behaviour)
    requires CleanOperation(Items) && !Stops(Items, b, 3, false)
    requires HeaderOf(GroupOf(Items, b, 3)) == Header("[GET]", "/items")
    requires Body(AsWritten, GroupOf(Items, b, 3)) == [Success("200", 2), Success("404", 1)]
    ensures Visited([Items], [b], 3, false) == 1
    ensures ReportPhase(AsWritten, true, true, RunLog([Items], [b], 3, 1)) ==
      (Completed, [Header("[GET]", "/items"), Success("200", 2), Success("404", 1)])
  {
    var header := Header("[GET]", "/items");
    var body := [Success("200", 2), Success("404", 1)];
    SingleOperationRun(Items, b, 3, false, header, body);
    ConsPair(header, body[0], body[1]);
  }

  /**
   * All answers documented (200, 200, 404): the run completes and the report
   * shows the header, `200` twice and `404` once, and no failure.
   */
  lemma AllDocumented(b: Behaviour)
    requires b == Behaviour([200, 200, 404], false)
    ensures Visited([Items], [b], 3, false) == 1
    ensures ReportPhase(AsWritten, true, true, RunLog([Items], [b], 3, 1)) ==
      (Completed, [Header("[GET]", "/items"), Success("200", 2), Success("404", 1)])
  {
    AllDocumentedFacts(b);
    AllDocumentedRun(b);
  }

  lemma FailFastTrials(b: Behaviour)
    requires b == Behaviour([200, 500, 200], false)
    ensures GroupOf(Items, b, 3).trials == [Passed(200), Failed(500, "{200, 404}"), Passed(200)]
    ensures SetsWatchdog(Items, b, 3, false) && Stops(Items, b, 3, false)
  {
    ItemsTrials(b);
    ThreeRecords(Items, b.statuses);
    assert b.statuses[1] !in Items.responseCodes;
  }

  lemma FourLines(rs: seq<Record>)
    requires |rs| == 4
    ensures LinesOf(rs) == [Line(rs[0]), Line(rs[1]), Line(rs[2]), Line(rs[3])]
  {
  }

  lemma ItemsHeaderLine()
    ensures Line(Test("GET", "/items")) == "test [GET] /items\n"
  {
  }

  lemma OkLine()
    ensures Line(Passed(200)) == "ok 200\n"
  {
    Decimals();
  }

  lemma FailedLine()
    ensures Line(Failed(500, "{200, 404}")) == "failed 500 {200, 404}\n"
  {
    Decimals();
  }

  lemma FailFastLines()
    ensures LinesOf([Test("GET", "/items"), Passed(200), Failed(500, "{200, 404}"), Passed(200)]) ==
      ["test [GET] /items\n", "ok 200\n", "failed 500 {200, 404}\n", "ok 200\n"]
  {
    FourLines([Test("GET", "/items"), Passed(200), Failed(500, "{200, 404}"), Passed(200)]);
    ItemsHeaderLine();
    OkLine();
    FailedLine();
  }

  /**
   * Failing fast on 500 at the second trial: the third trial still runs and
   * is logged, the next operation is never visited, and the watchdog file
   * ends the run with exit 1 before any report.
   */
  lemma FailFast(b: Behaviour, next: Behaviour)
    requires b == Behaviour([200, 500, 200], false)
    ensures FirstStop([Items, Items], [b, next], 3, false) == 0
    ensures Visited([Items, Items], [b, next], 3, false) == 1
    ensures SetsWatchdog(Items, b, 3, false)
    ensures RunLog([Items, Items], [b, next], 3, 1) ==
      ["test [GET] /items\n", "ok 200\n", "failed 500 {200, 404}\n", "ok 200\n"]
  {
    FailFastTrials(b);
    FirstOperationLog([Items, Items], [b, next], 3);
    assert [Test("GET", "/items")] + GroupOf(Items, b, 3).trials ==
      [Test("GET", "/items"), Passed(200), Failed(500, "{200, 404}"), Passed(200)];
    FailFastLines();
  }

  lemma SkippedTrials(b: Behaviour)
    ensures Skipped(Search) && GroupOf(Search, b, 3).trials == [] && !Stops(Search, b, 3, false)
  {
    assert Falsy(Search.params[0].typ);
  }

  lemma SkippedLog(b: Behaviour)
    ensures RunLog([Search], [b], 3, 1) == ["test [GET] /search\n"]
  {
    SkippedTrials(b);
    FirstOperationLog([Search], [b], 3);
    var header := Test(Search.verb, Search.path);
    assert [header] + GroupOf(Search, b, 3).trials == [header];
    assert LinesOf([header]) == [Line(header)];
    Headers(b);
  }

  lemma SkippedFacts(b: Behaviour)
    ensures CleanOperation(Search) && !Stops(Search, b, 3, false)
    ensures HeaderOf(GroupOf(Search, b, 3)) == Header("[GET]", "/search")
    ensures Body(AsWritten, GroupOf(Search, b, 3)) == []
  {
    Clean();
    SkippedTrials(b);
    GroupBodyFrom(GroupOf(Search, b, 3), [], []);
    Headers(b);
  }

  lemma SkippedReport(b: Behaviour)
    requires CleanOperation(Search) && !Stops(Search, b, 3, false)
    requires HeaderOf(GroupOf(Search, b, 3)) == Header("[GET]", "/search")
    requires Body(AsWritten, GroupOf(Search, b, 3)) == []
    ensures ReportPhase(AsWritten, true, true, RunLog([Search], [b], 3, 1)) == (Completed, [Header("[GET]", "/search")])
  {
    var header := Header("[GET]", "/search");
    SingleOperationRun(Search, b, 3, false, header, []);
    AppendEmpty([header]);
  }

  /**
   * An operation with an untyped parameter is skipped, whatever the client
   * would answer: its header is logged, no trial runs, and its report is the
   * header alone.
   */
  lemma SkippedOperation(b: Behaviour)
    ensures Skipped(Search)
    ensures RunLog([Search], [b], 3, 1) == ["test [GET] /search\n"]
    ensures ReportPhase(AsWritten, true, true, RunLog([Search], [b], 3, 1)) == (Completed, [Header("[GET]", "/search")])
  {
    SkippedTrials(b);
    SkippedLog(b);
    SkippedFacts(b);
    SkippedReport(b);
  }

  lemma DroppedTrials(b: Behaviour)
    requires b == Behaviour([200, 500], false)
    ensures GroupOf(Items, b, 3).trials == [Passed(200), Failed(500, "{200, 404}")]
    ensures CleanGroup(GroupOf(Items, b, 3))
  {
    ItemsTrials(b);
    TwoRecords(Items, b.statuses);
    Clean();
  }

  lemma DroppedPairs(t: seq<Record>)
    requires t == [Passed(200), Failed(500, "{200, 404}")]
    ensures PassedStatuses(t) == [200]
    ensures FailedPairs(t) == [(500, "{200, 404}")]
  {
    Snocs(t[0], t[1], t[1]);
    PassedSnoc([], t[0].status);
    FailedSnoc([t[0]], t[1].status, t[1].codes);
  }

  lemma DroppedTallyOf(ss: seq<nat>)
    requires ss == [200]
    ensures TallyOf(ss) == [("200", 1)]
    ensures SuccessLines([("200", 1)]) == [Success("200", 1)]
  {
    Decimals();
    Snocs(ss[0], ss[0], ss[0]);
    TallySnoc([], ss[0]);
    assert Bump([], "200") == [("200", 1)];
  }

  lemma DroppedFailures(fs: seq<(nat, string)>)
    requires fs == [(500, "{200, 404}")]
    ensures FailureReport(fs) == [Fail("500", "{200, 404}")]
  {
    Decimals();
  }

  lemma DroppedTally(t: seq<Record>)
    requires t == [Passed(200), Failed(500, "{200, 404}")]
    ensures TallyOf(PassedStatuses(t)) == [("200", 1)]
    ensures FailureReport(FailedPairs(t)) == [Fail("500", "{200, 404}")]
    ensures SuccessLines([("200", 1)]) == [Success("200", 1)]
  {
    DroppedPairs(t);
    DroppedTallyOf(PassedStatuses(t));
    DroppedFailures(FailedPairs(t));
  }

  lemma DroppedBodies(g: Group)
    requires g.trials == [Passed(200), Failed(500, "{200, 404}")]
    requires HeaderOf(g) == Header("[GET]", "/items")
    ensures Reports(AsWritten, [g]) == [Header("[GET]", "/items"), Success("200", 1)]
    ensures Reports(Intended, [g]) == [Header("[GET]", "/items"), Success("200", 1), Fail("500", "{200, 404}")]
  {
    DroppedTally(g.trials);
    GroupBodyFrom(g, [("200", 1)], [Fail("500", "{200, 404}")]);
    OneGroupReport(AsWritten, g);
    OneGroupReport(Intended, g);
  }

  /**
   * The dropped failure: a run that returns 200 then an undocumented 500
   * logs the failure, yet the source's reader prints only the success; the
   * intended reader prints the failure after it.
   */
  lemma FailureDropped(b: Behaviour)
    requires b == Behaviour([200, 500], false)
    ensures Reduce(AsWritten, ReadBack(LinesOf(GroupsRecords([GroupOf(Items, b, 3)])))) ==
      Ok([Header("[GET]", "/items"), Success("200", 1)])
    ensures Reduce(Intended, ReadBack(LinesOf(GroupsRecords([GroupOf(Items, b, 3)])))) ==
      Ok([Header("[GET]", "/items"), Success("200", 1), Fail("500", "{200, 404}")])
  {
    DroppedTrials(b);
    RoundTripReport(AsWritten, [GroupOf(Items, b, 3)]);
    RoundTripReport(Intended, [GroupOf(Items, b, 3)]);
    Headers(b);
    DroppedBodies(GroupOf(Items, b, 3));
  }

  /** An operation whose path holds a line break. */
  const Broken: Operation := Operation("G", "a\nok 2", [], {200}, "{200}")

  lemma BrokenHeaderLine()
    ensures Line(Test("G", "a\nok 2")) == "test [G] a\nok 2\n"
  {
  }

  /** With no answers from the client, the operation logs its header alone and does not stop the run. */
  lemma BrokenLog(b: Behaviour)
    requires b == Behaviour([], false)
    ensures !Stops(Broken, b, 3, false)
    ensures RunLog([Broken], [b], 3, 1) == ["test [G] a\nok 2\n"]
  {
    assert !Skipped(Broken);
    assert Trials(Broken, b, 3) == [];
    FirstOperationLog([Broken], [b], 3);
    var header := Test(Broken.verb, Broken.path);
    assert [header] + GroupOf(Broken, b, 3).trials == [header];
    assert LinesOf([header]) == [Line(header)];
    BrokenHeaderLine();
  }

  lemma TwoLines(rs: seq<Record>)
    requires |rs| == 2
    ensures LinesOf(rs) == [Line(rs[0]), Line(rs[1])]
  {
  }

  lemma MisreadRecords()
    ensures CleanGroup(Group("G", "a", [Passed(2)]))
    ensures GroupsRecords([Group("G", "a", [Passed(2)])]) == [Test("G", "a"), Passed(2)]
  {
    var g := Group("G", "a", [Passed(2)]);
    assert [g][..0] == [];
    assert GroupsRecords([g]) == [] + GroupRecords(g);
  }

  lemma MisreadLines()
    ensures Contents(LinesOf([Test("G", "a"), Passed(2)])) == "test [G] a\nok 2\n"
  {
    var rs := [Test("G", "a"), Passed(2)];
    TwoLines(rs);
    assert NatToString(2) == "2";
    assert Line(rs[1]) == "ok 2\n";
    var ls := ["test [G] a\n", "ok 2\n"];
    assert ls[1..] == ["ok 2\n"] && ls[1..][1..] == [];
    assert Contents(ls[1..]) == "ok 2\n" + Contents([]);
    assert Contents(ls) == "test [G] a\n" + "ok 2\n";
  }

  lemma MisreadBody(g: Group)
    requires g.trials == [Passed(2)]
    ensures Body(AsWritten, g) == [Success("2", 1)]
  {
    PassedSnoc([], 2);
    assert [] + [Passed(2)] == g.trials;
    assert NatToString(2) == "2";
    assert TallyOf([2]) == Bump([], "2");
    GroupBodyFrom(g, [("2", 1)], []);
  }

  /** The group that the header's text reads back as: the path cut at the break, then an `ok 2` record. */
  lemma MisreadGroup()
    ensures CleanGroup(Group("G", "a", [Passed(2)]))
    ensures Contents(LinesOf(GroupsRecords([Group("G", "a", [Passed(2)])]))) == "test [G] a\nok 2\n"
    ensures Reports(AsWritten, [Group("G", "a", [Passed(2)])]) == [Header("[G]", "a"), Success("2", 1)]
  {
    var g := Group("G", "a", [Passed(2)]);
    MisreadRecords();
    MisreadLines();
    OneGroupReport(AsWritten, g);
    MisreadBody(g);
    assert HeaderOf(g) == Header("[G]", "a");
    Snocs(Header("[G]", "a"), Success("2", 1), Success("2", 1));
  }

  lemma BrokenContents()
    ensures Contents(["test [G] a\nok 2\n"]) == "test [G] a\nok 2\n"
  {
    assert Contents(["test [G] a\nok 2\n"][1..]) == [];
  }

  /**
   * A path holding `\n` splits its header record when the log is read back:
   * `test [G] a\nok 2\n` comes back as the header of path `a` and an `ok 2`
   * line, so the report shows one trial returning 2 although no trial ran.
   */
  lemma NewlineInPath(b: Behaviour)
    requires b == Behaviour([], false)
    ensures Visited([Broken], [b], 3, false) == 1
    ensures RunLog([Broken], [b], 3, 1) == ["test [G] a\nok 2\n"]
    ensures ReportPhase(AsWritten, true, true, RunLog([Broken], [b], 3, 1)) ==
      (Completed, [Header("[G]", "a"), Success("2", 1)])
  {
    BrokenLog(b);
    assert FirstStop([Broken], [b], 3, false) == 1;
    var g := Group("G", "a", [Passed(2)]);
    MisreadGroup();
    RoundTripReport(AsWritten, [g]);
    var log := RunLog([Broken], [b], 3, 1);
    BrokenContents();
    assert ReadBack(log) == ReadBack(LinesOf(GroupsRecords([g])));
  }
}
