/**
 * The conformance run: `api_conformance_test` visits the operations of the
 * API in order and hands each to `operation_conformance_test`, which writes a
 * header record, skips operations with an untyped parameter, and otherwise
 * checks each returned status against the documented codes, writing one
 * record per trial and raising the watchdog flag on a failure when the run
 * is not to continue on error. The log file is a sequence of written lines,
 * the watchdog file a boolean, and every way the process ends is an `Exit`.
 */
module Conformance {
  import opened Seqs
  import opened Wrappers
  import opened Text
  import opened Log
  import opened LogFile
  import opened Report
  import opened RoundTrip

  /** A parameter of an operation, with its declared type (`None` when absent). */
  datatype Param = Param(name: string, typ: Option<string>)

  /**
   * An operation of the API: its HTTP verb and path, its parameters, its
   * documented response codes, and the text `str(response_codes)` that a
   * `failed` record carries.
   */
  datatype Operation = Operation(verb: string, path: string, params: seq<Param>,
                                 responseCodes: set<nat>, codesText: string)

  /**
   * What the client does for one operation: the statuses it returns, trial by
   * trial, and whether building the trials raises `ValueError`.
   */
  datatype Behaviour = Behaviour(statuses: seq<nat>, raisesValueError: bool)

  /** How `operation_conformance_test` ends. */
  datatype OpOutcome = Returned | RaisedValueError | Exited

  /** How the process ends: exit 0, `sys.exit(1)`, or an uncaught exception. */
  datatype Exit = Completed | Exit1 | Traceback(error: PyError)

  /**
   * The observable result of a run: how it ended, the authentication label it
   * printed (none when the client could not be built), how many operations it
   * visited, the log and watchdog files, and the report entries printed.
   */
  datatype RunResult = RunResult(exit: Exit, authLabel: Option<string>, visited: nat,
                                 log: seq<string>, watchdog: bool, printed: seq<Printed>)

  /** The authentication label: authenticated exactly when both username and password are given. */
  function AuthLabel(username: Option<string>, password: Option<string>): (shown: string)
    ensures shown == " authenticated" <==> username.Some? && password.Some?
    ensures shown != " authenticated" ==> shown == " basic"
  {
    if username.Some? && password.Some? then " authenticated" else " basic"
  }

  /** Python's `not op.type`: no type, or an empty one. */
  predicate Falsy(t: Option<string>) {
    t.None? || t.value == ""
  }

  /** An operation with an untyped parameter is skipped. */
  predicate Skipped(op: Operation) {
    exists i :: 0 <= i < |op.params| && Falsy(op.params[i].typ)
  }

  /** The record one trial writes: `ok` exactly when the status is documented. */
  function TrialRecord(op: Operation, status: nat): (r: Record)
    ensures r.Passed? <==> status in op.responseCodes
    ensures !r.Test? && r.status == status
    ensures r.Failed? ==> r.codes == op.codesText
  {
    if status in op.responseCodes then Passed(status) else Failed(status, op.codesText)
  }

  /** The records of a run of trials, one per trial, in order. */
  function TrialRecords(op: Operation, ts: seq<nat>): (rs: seq<Record>)
    ensures |rs| == |ts|
    ensures forall i :: 0 <= i < |ts| ==> rs[i] == TrialRecord(op, ts[i])
  {
    if ts == [] then [] else TrialRecords(op, ts[..|ts| - 1]) + [TrialRecord(op, ts[|ts| - 1])]
  }

  /**
   * The statuses of the trials actually run: none for a skipped operation or
   * one whose trials cannot be built, otherwise the first `num_tests` the
   * client returns.
   */
  function Trials(op: Operation, b: Behaviour, numTests: nat): (ts: seq<nat>)
    ensures |ts| <= numTests && ts <= b.statuses
    ensures Skipped(op) || b.raisesValueError ==> ts == []
  {
    if Skipped(op) || b.raisesValueError then []
    else if |b.statuses| <= numTests then b.statuses
    else b.statuses[..numTests]
  }

  /** Some trial returned an undocumented status: the last one, or one before it. */
  predicate Fails(op: Operation, ts: seq<nat>) {
    ts != [] && (Fails(op, ts[..|ts| - 1]) || ts[|ts| - 1] !in op.responseCodes)
  }

  /** The operation creates the watchdog file: a failure while not continuing on error. */
  predicate SetsWatchdog(op: Operation, b: Behaviour, numTests: nat, contOnErr: bool) {
    !contOnErr && Fails(op, Trials(op, b, numTests))
  }

  /** After this operation the run ends with exit 1: a `ValueError`, or the watchdog file. */
  predicate Stops(op: Operation, b: Behaviour, numTests: nat, contOnErr: bool) {
    !Skipped(op) && (b.raisesValueError || SetsWatchdog(op, b, numTests, contOnErr))
  }

  /** The operation's stretch of the log: its header, then one record per trial run. */
  function GroupOf(op: Operation, b: Behaviour, numTests: nat): Group {
    Group(op.verb, op.path, TrialRecords(op, Trials(op, b, numTests)))
  }

  function Groups(ops: seq<Operation>, bs: seq<Behaviour>, numTests: nat): (gs: seq<Group>)
    requires |bs| == |ops|
    ensures |gs| == |ops|
  {
    seq(|ops|, i requires 0 <= i < |ops| => GroupOf(ops[i], bs[i], numTests))
  }

  /**
   * The index of the operation after which the run stops, or the number of
   * operations when none stops it.
   */
  function FirstStop(ops: seq<Operation>, bs: seq<Behaviour>, numTests: nat, contOnErr: bool): (k: nat)
    requires |bs| == |ops|
    ensures k <= |ops|
    ensures forall i :: 0 <= i < k ==> !Stops(ops[i], bs[i], numTests, contOnErr)
    ensures k < |ops| ==> Stops(ops[k], bs[k], numTests, contOnErr)
  {
    if ops == [] then 0
    else if Stops(ops[0], bs[0], numTests, contOnErr) then 0
    else 1 + FirstStop(ops[1..], bs[1..], numTests, contOnErr)
  }

  /** Up to the first stop, an operation stops the run exactly when it is the first stop. */
  lemma FirstStopAt(ops: seq<Operation>, bs: seq<Behaviour>, numTests: nat, contOnErr: bool, k: nat)
    requires |bs| == |ops| && k < |ops| && k <= FirstStop(ops, bs, numTests, contOnErr)
    ensures Stops(ops[k], bs[k], numTests, contOnErr) <==> k == FirstStop(ops, bs, numTests, contOnErr)
  {
  }

  /** The number of operations the run visits: up to and including the one that stops it. */
  function Visited(ops: seq<Operation>, bs: seq<Behaviour>, numTests: nat, contOnErr: bool): nat
    requires |bs| == |ops|
  {
    var k := FirstStop(ops, bs, numTests, contOnErr);
    if k < |ops| then k + 1 else |ops|
  }

  /** An operation whose records the reader splits back as written. */
  predicate CleanOperation(op: Operation) {
    Plain(op.verb) && Plain(op.path) && CleanCodes(op.codesText)
  }

  /** The body of `single_operation_test` for one returned status. */
  method RunTrial(op: Operation, status: nat, contOnErr: bool, getReport: bool,
                  log: seq<string>, watchdog: bool)
    returns (log': seq<string>, watchdog': bool)
    ensures log' == log + (if getReport then [Line(TrialRecord(op, status))] else [])
    ensures watchdog' == (watchdog || (!contOnErr && status !in op.responseCodes))
  {
    log', watchdog' := log, watchdog;
    if status in op.responseCodes {
      if getReport {
        log' := log' + ["ok " + NatToString(status) + "\n"];
      }
    } else {
      if getReport {
        log' := log' + ["failed " + NatToString(status) + " " + op.codesText + "\n"];
      }
      if !contOnErr {
        watchdog' := true;
      }
    }
  }

  /** The parameter loop: the operation is supported unless some parameter type is falsy. */
  method SupportedTypes(params: seq<Param>) returns (supported: bool)
    ensures supported <==> forall i :: 0 <= i < |params| ==> !Falsy(params[i].typ)
  {
    var i := 0;
    while i < |params|
      invariant 0 <= i <= |params|
      invariant forall j :: 0 <= j < i ==> !Falsy(params[j].typ)
    {
      if Falsy(params[i].typ) {
        return false;
      }
      i := i + 1;
    }
    return true;
  }

  /** One more trial extends the records by that trial's record. */
  lemma TrialRecordsSnoc(op: Operation, ts: seq<nat>, i: nat)
    requires i < |ts|
    ensures TrialRecords(op, ts[..i + 1]) == TrialRecords(op, ts[..i]) + [TrialRecord(op, ts[i])]
  {
    PrefixOfPrefix(ts, i);
  }

  /** One more trial adds its record's line to the trials' lines. */
  lemma TrialLinesSnoc(op: Operation, ts: seq<nat>, i: nat)
    requires i < |ts|
    ensures LinesOf(TrialRecords(op, ts[..i + 1])) ==
      LinesOf(TrialRecords(op, ts[..i])) + [Line(TrialRecord(op, ts[i]))]
  {
    TrialRecordsSnoc(op, ts, i);
    LinesSnoc(TrialRecords(op, ts[..i]), TrialRecord(op, ts[i]));
  }

  /** One more trial fails the run of trials exactly when it or an earlier one fails. */
  lemma FailsSnoc(op: Operation, ts: seq<nat>, i: nat)
    requires i < |ts|
    ensures Fails(op, ts[..i + 1]) <==> Fails(op, ts[..i]) || ts[i] !in op.responseCodes
  {
    PrefixOfPrefix(ts, i);
  }

  /** A run of trials fails exactly when some trial returned an undocumented status. */
  lemma {:induction false} FailsSome(op: Operation, ts: seq<nat>)
    ensures Fails(op, ts) <==> exists i :: 0 <= i < |ts| && ts[i] !in op.responseCodes
  {
    if ts != [] {
      var init := ts[..|ts| - 1];
      FailsSome(op, init);
      if Fails(op, init) {
        var j :| 0 <= j < |init| && init[j] !in op.responseCodes;
        assert ts[j] == init[j];
      }
      if (exists j :: 0 <= j < |ts| && ts[j] !in op.responseCodes) && ts[|ts| - 1] in op.responseCodes {
        var j :| 0 <= j < |ts| && ts[j] !in op.responseCodes;
        assert init[j] == ts[j];
      }
    }
  }

  /** The log one trial further: the trial's line appended, when reporting. */
  lemma TrialLogSnoc(op: Operation, ts: seq<nat>, i: nat, getReport: bool, log0: seq<string>, log: seq<string>)
    requires i < |ts|
    requires log == log0 + (if getReport then LinesOf(TrialRecords(op, ts[..i])) else [])
    ensures log + (if getReport then [Line(TrialRecord(op, ts[i]))] else []) ==
      log0 + (if getReport then LinesOf(TrialRecords(op, ts[..i + 1])) else [])
  {
    TrialLinesSnoc(op, ts, i);
    AppendAssoc(log0, LinesOf(TrialRecords(op, ts[..i])), [Line(TrialRecord(op, ts[i]))]);
    TakeAll(log);
  }

  /** The trials hypothesis runs: `single_operation_test` once per status, in order. */
  method RunTrials(op: Operation, ts: seq<nat>, contOnErr: bool, getReport: bool,
                   log: seq<string>, watchdog: bool)
    returns (log': seq<string>, watchdog': bool)
    ensures log' == log + (if getReport then LinesOf(TrialRecords(op, ts)) else [])
    ensures watchdog' == (watchdog || (!contOnErr && Fails(op, ts)))
  {
    log', watchdog' := log, watchdog;
    var i := 0;
    while i < |ts|
      invariant 0 <= i <= |ts|
      invariant log' == log + (if getReport then LinesOf(TrialRecords(op, ts[..i])) else [])
      invariant watchdog' == (watchdog || (!contOnErr && Fails(op, ts[..i])))
    {
      TrialLogSnoc(op, ts, i, getReport, log, log');
      FailsSnoc(op, ts, i);
      log', watchdog' := RunTrial(op, ts[i], contOnErr, getReport, log', watchdog');
      i := i + 1;
    }
    TakeAll(ts);
  }

  /** An operation's lines: the header's, then one per trial run. */
  lemma GroupLines(op: Operation, b: Behaviour, numTests: nat)
    ensures LinesOf(GroupRecords(GroupOf(op, b, numTests))) ==
      [Line(Test(op.verb, op.path))] + LinesOf(TrialRecords(op, Trials(op, b, numTests)))
  {
    var header := Test(op.verb, op.path);
    LinesOfAppend([header], TrialRecords(op, Trials(op, b, numTests)));
    assert LinesOf([header]) == [Line(header)];
  }

  /**
   * `operation_conformance_test`: write the header, skip an operation with an
   * untyped parameter, build the trials, run them, then stop the process if
   * the watchdog file exists.
   */
  method OperationConformanceTest(op: Operation, b: Behaviour, numTests: nat, contOnErr: bool,
                                  getReport: bool, log: seq<string>, watchdog: bool)
    returns (log': seq<string>, watchdog': bool, outcome: OpOutcome)
    ensures log' == log + (if getReport then LinesOf(GroupRecords(GroupOf(op, b, numTests))) else [])
    ensures watchdog' == (watchdog || SetsWatchdog(op, b, numTests, contOnErr))
    ensures outcome ==
      if Skipped(op) then Returned
      else if b.raisesValueError then RaisedValueError
      else if watchdog' then Exited
      else Returned
  {
    GroupLines(op, b, numTests);
    log' := log;
    if getReport {
      log' := log' + ["test [" + op.verb + "] " + op.path + "\n"];
    }
    log', watchdog', outcome := TestOperation(op, b, numTests, contOnErr, getReport, log', watchdog);
    AppendAssoc(log, [Line(Test(op.verb, op.path))], LinesOf(TrialRecords(op, Trials(op, b, numTests))));
  }

  /** Everything `operation_conformance_test` does after writing the header. */
  method TestOperation(op: Operation, b: Behaviour, numTests: nat, contOnErr: bool,
                       getReport: bool, log: seq<string>, watchdog: bool)
    returns (log': seq<string>, watchdog': bool, outcome: OpOutcome)
    ensures log' == log + (if getReport then LinesOf(TrialRecords(op, Trials(op, b, numTests))) else [])
    ensures watchdog' == (watchdog || SetsWatchdog(op, b, numTests, contOnErr))
    ensures Skipped(op) ==> log' == log && watchdog' == watchdog
    ensures !Skipped(op) && !b.raisesValueError && getReport ==>
      |log'| == |log| + (if |b.statuses| < numTests then |b.statuses| else numTests)
    ensures outcome ==
      if Skipped(op) then Returned
      else if b.raisesValueError then RaisedValueError
      else if watchdog' then Exited
      else Returned
  {
    var supported := SupportedTypes(op.params);
    if !supported {
      assert Trials(op, b, numTests) == [];
      return log, watchdog, Returned;
    }
    if b.raisesValueError {
      assert Trials(op, b, numTests) == [];
      return log, watchdog, RaisedValueError;
    }
    var count := if |b.statuses| < numTests then |b.statuses| else numTests;
    assert Trials(op, b, numTests) == b.statuses[..count];
    log', watchdog' := RunTrials(op, b.statuses[..count], contOnErr, getReport, log, watchdog);
    outcome := if watchdog' then Exited else Returned;
  }

  /** The log the first `k` operations write: the first `k - 1` operations' log, then the lines of operation `k - 1`. */
  function RunLog(ops: seq<Operation>, bs: seq<Behaviour>, numTests: nat, k: nat): seq<string>
    requires |bs| == |ops| && k <= |ops|
  {
    if k == 0 then []
    else RunLog(ops, bs, numTests, k - 1) + LinesOf(GroupRecords(GroupOf(ops[k - 1], bs[k - 1], numTests)))
  }

  /** The log of the first `k` operations is the lines of their groups' records, in order. */
  lemma {:induction false} RunLogGroups(ops: seq<Operation>, bs: seq<Behaviour>, numTests: nat, k: nat)
    requires |bs| == |ops| && k <= |ops|
    ensures RunLog(ops, bs, numTests, k) == LinesOf(GroupsRecords(Groups(ops[..k], bs[..k], numTests)))
  {
    if k > 0 {
      RunLogGroups(ops, bs, numTests, k - 1);
      var gs := Groups(ops[..k], bs[..k], numTests);
      assert gs[..k - 1] == Groups(ops[..k - 1], bs[..k - 1], numTests);
      LinesOfAppend(GroupsRecords(gs[..k - 1]), GroupRecords(GroupOf(ops[k - 1], bs[k - 1], numTests)));
    }
  }

  /** The log one operation further: that operation's lines appended, when reporting. */
  lemma RunLogStep(ops: seq<Operation>, bs: seq<Behaviour>, numTests: nat, k: nat, getReport: bool,
                   log: seq<string>, log': seq<string>)
    requires |bs| == |ops| && k < |ops|
    requires log == if getReport then RunLog(ops, bs, numTests, k) else []
    requires log' == log + (if getReport then LinesOf(GroupRecords(GroupOf(ops[k], bs[k], numTests))) else [])
    ensures log' == if getReport then RunLog(ops, bs, numTests, k + 1) else []
  {
    AppendEmpty(log);
  }

  /**
   * The report phase after the last operation: read the log file back, if
   * there is one, line by line as Python iterates over it, with the given
   * reader (the source's is `AsWritten`).
   */
  function ReportPhase(reader: Reader, getReport: bool, logExists: bool, log: seq<string>): (Exit, seq<Printed>) {
    if !getReport then (Completed, [])
    else if !logExists then (Traceback(FileNotFound), [])
    else
      match Reduce(reader, ReadBack(log))
      case Err(e) => (Traceback(e), [])
      case Ok(printed) => (Completed, printed)
  }

  /** Entered without the watchdog file, an operation ends other than by returning exactly when it stops the run. */
  lemma ReturnUnlessStops(op: Operation, b: Behaviour, numTests: nat, contOnErr: bool, watchdog: bool, outcome: OpOutcome)
    requires watchdog == SetsWatchdog(op, b, numTests, contOnErr)
    requires outcome ==
      if Skipped(op) then Returned
      else if b.raisesValueError then RaisedValueError
      else if watchdog then Exited
      else Returned
    ensures outcome != Returned <==> Stops(op, b, numTests, contOnErr)
    ensures outcome == Returned ==> !watchdog
  {
  }

  /**
   * One pass of the operation loop: operation `k`, which no earlier operation
   * has stopped, appends its group to the log and ends the loop exactly when
   * it is the first to stop the run.
   */
  method VisitOperation(ops: seq<Operation>, bs: seq<Behaviour>, numTests: nat, contOnErr: bool, getReport: bool,
                        k: nat, log: seq<string>)
    returns (log': seq<string>, watchdog': bool, stopped: bool)
    requires |bs| == |ops| && k < |ops| && k <= FirstStop(ops, bs, numTests, contOnErr)
    requires log == if getReport then RunLog(ops, bs, numTests, k) else []
    ensures log' == if getReport then RunLog(ops, bs, numTests, k + 1) else []
    ensures stopped <==> k == FirstStop(ops, bs, numTests, contOnErr)
    ensures watchdog' <==> stopped && SetsWatchdog(ops[k], bs[k], numTests, contOnErr)
  {
    var outcome;
    log', watchdog', outcome := OperationConformanceTest(ops[k], bs[k], numTests, contOnErr, getReport, log, false);
    RunLogStep(ops, bs, numTests, k, getReport, log, log');
    ReturnUnlessStops(ops[k], bs[k], numTests, contOnErr, watchdog', outcome);
    FirstStopAt(ops, bs, numTests, contOnErr, k);
    stopped := outcome != Returned;
  }

  /** The operation loop: visit the operations in order until one stops the process. */
  method RunOperations(ops: seq<Operation>, bs: seq<Behaviour>, numTests: nat, contOnErr: bool, getReport: bool)
    returns (log: seq<string>, watchdog: bool, visited: nat, stopped: bool)
    requires |bs| == |ops|
    ensures stopped <==> FirstStop(ops, bs, numTests, contOnErr) < |ops|
    ensures visited == Visited(ops, bs, numTests, contOnErr)
    ensures visited <= |ops| && log == (if getReport then RunLog(ops, bs, numTests, visited) else [])
    ensures watchdog <==> stopped && SetsWatchdog(ops[visited - 1], bs[visited - 1], numTests, contOnErr)
  {
    log, watchdog, visited, stopped := [], false, 0, false;
    ghost var stop := FirstStop(ops, bs, numTests, contOnErr);
    while visited < |ops| && !stopped
      invariant visited <= |ops|
      invariant stopped ==> 0 < visited && visited - 1 == stop
      invariant !stopped ==> visited <= stop && !watchdog
      invariant watchdog ==> stopped && SetsWatchdog(ops[visited - 1], bs[visited - 1], numTests, contOnErr)
      invariant stopped && SetsWatchdog(ops[visited - 1], bs[visited - 1], numTests, contOnErr) ==> watchdog
      invariant log == if getReport then RunLog(ops, bs, numTests, visited) else []
    {
      log, watchdog, stopped := VisitOperation(ops, bs, numTests, contOnErr, getReport, visited, log);
      visited := visited + 1;
    }
  }

  /**
   * `api_conformance_test`: build the client, print the authentication
   * label, run the operations, then read the log back into the report with
   * `reader` (the source's is `AsWritten`).
   */
  method ApiConformanceTest(reader: Reader, setupFails: bool, ops: seq<Operation>, bs: seq<Behaviour>, numTests: nat,
                            contOnErr: bool, getReport: bool,
                            username: Option<string>, password: Option<string>)
    returns (run: RunResult)
    requires |bs| == |ops|
    ensures setupFails ==> run == RunResult(Exit1, None, 0, [], false, [])
    ensures !setupFails ==> run.authLabel == Some(AuthLabel(username, password))
    ensures !setupFails ==> run.visited == Visited(ops, bs, numTests, contOnErr)
    ensures !setupFails ==>
      run.visited <= |ops| && run.log == (if getReport then RunLog(ops, bs, numTests, run.visited) else [])
    ensures !setupFails ==>
      (run.watchdog <==> 0 < run.visited <= |ops| && run.exit == Exit1 && SetsWatchdog(ops[run.visited - 1], bs[run.visited - 1], numTests, contOnErr))
    ensures !setupFails && FirstStop(ops, bs, numTests, contOnErr) < |ops| ==>
      run.exit == Exit1 && run.printed == []
    ensures !setupFails && FirstStop(ops, bs, numTests, contOnErr) == |ops| ==>
      (run.exit, run.printed) == ReportPhase(reader, getReport, |ops| > 0, run.log)
  {
    if setupFails {
      return RunResult(Exit1, None, 0, [], false, []);
    }
    var shown := AuthLabel(username, password);
    var log, watchdog, visited, stopped := RunOperations(ops, bs, numTests, contOnErr, getReport);
    ghost var stop := FirstStop(ops, bs, numTests, contOnErr);
    if stopped {
      assert visited == stop + 1;
      run := RunResult(Exit1, Some(shown), visited, log, watchdog, []);
    } else {
      assert stop == |ops| && !watchdog;
      var exit, printed := RunReportPhase(reader, getReport, |ops| > 0, log);
      run := RunResult(exit, Some(shown), visited, log, watchdog, printed);
    }
  }

  /** After the last operation: nothing without `get_report`, otherwise open the log and read it back. */
  method RunReportPhase(reader: Reader, getReport: bool, logExists: bool, log: seq<string>)
    returns (exit: Exit, printed: seq<Printed>)
    ensures (exit, printed) == ReportPhase(reader, getReport, logExists, log)
    ensures exit != Exit1
  {
    if !getReport {
      return Completed, [];
    }
    if !logExists {
      return Traceback(FileNotFound), [];
    }
    var read := ReduceLog(reader, ReadBack(log));
    if read.Err? {
      return Traceback(read.error), [];
    }
    return Completed, read.value;
  }

  /** The passing statuses among the trial records are the documented ones among the trials. */
  lemma {:induction false} PassedOfTrials(op: Operation, ts: seq<nat>, c: nat)
    ensures multiset(PassedStatuses(TrialRecords(op, ts)))[c] ==
      if c in op.responseCodes then multiset(ts)[c] else 0
  {
    if ts != [] {
      var init, last := ts[..|ts| - 1], ts[|ts| - 1];
      PassedOfTrials(op, init, c);
      var rs := TrialRecords(op, ts);
      assert rs[..|rs| - 1] == TrialRecords(op, init);
      assert ts == init + [last];
      assert multiset(ts) == multiset(init) + multiset{last};
    }
  }

  /**
   * Per operation, the report's tally for status `c` is the number of trials
   * that returned `c` when `c` is documented, and there is none otherwise;
   * a status gets an entry exactly when it is documented and was returned.
   */
  lemma OperationTally(op: Operation, b: Behaviour, numTests: nat, c: nat)
    ensures Lookup(TallyOf(PassedStatuses(GroupOf(op, b, numTests).trials)), NatToString(c)) ==
      if c in op.responseCodes then multiset(Trials(op, b, numTests))[c] else 0
    ensures NatToString(c) in Keys(TallyOf(PassedStatuses(GroupOf(op, b, numTests).trials))) <==>
      c in op.responseCodes && c in Trials(op, b, numTests)
  {
    var ts := Trials(op, b, numTests);
    var ps := PassedStatuses(TrialRecords(op, ts));
    PassedOfTrials(op, ts, c);
    TallyCounts(ps, c);
    TallyKeys(ps, c);
    var mp: multiset<nat>, mt: multiset<nat> := multiset(ps), multiset(ts);
    assert c in ps <==> c in mp;
    assert c in ts <==> c in mt;
  }

  /** With no `ValueError` and continuing on error, nothing stops the run: every operation is visited. */
  lemma ContinueOnErrorVisitsAll(ops: seq<Operation>, bs: seq<Behaviour>, numTests: nat)
    requires |bs| == |ops|
    requires forall i :: 0 <= i < |bs| ==> !bs[i].raisesValueError
    ensures Visited(ops, bs, numTests, true) == |ops|
    ensures RunLog(ops, bs, numTests, |ops|) == LinesOf(GroupsRecords(Groups(ops, bs, numTests)))
  {
    RunLogGroups(ops, bs, numTests, |ops|);
    assert ops[..|ops|] == ops && bs[..|bs|] == bs;
  }

  /**
   * Failing fast: an operation with a failing trial, when not continuing on
   * error, is the last one visited at the latest.
   */
  lemma FailFastStops(ops: seq<Operation>, bs: seq<Behaviour>, numTests: nat, i: nat)
    requires |bs| == |ops| && i < |ops|
    requires Fails(ops[i], Trials(ops[i], bs[i], numTests))
    ensures Visited(ops, bs, numTests, false) <= i + 1
  {
    var ts := Trials(ops[i], bs[i], numTests);
    assert ts != [];
    assert Stops(ops[i], bs[i], numTests, false);
  }

  /** The operations' groups are clean when the operations are. */
  lemma CleanGroups(ops: seq<Operation>, bs: seq<Behaviour>, numTests: nat)
    requires |bs| == |ops|
    requires forall i :: 0 <= i < |ops| ==> CleanOperation(ops[i])
    ensures forall i :: 0 <= i < |ops| ==> CleanGroup(Groups(ops, bs, numTests)[i])
  {
    forall i | 0 <= i < |ops| ensures CleanGroup(Groups(ops, bs, numTests)[i]) {
      var g := GroupOf(ops[i], bs[i], numTests);
      assert Groups(ops, bs, numTests)[i] == g;
      forall j | 0 <= j < |g.trials| ensures CleanTrial(g.trials[j]) {
        var r := g.trials[j];
        assert r.Failed? ==> r.codes == ops[i].codesText;
      }
    }
  }

  /**
   * A run that visits every operation of a non-empty API with clean verbs,
   * paths and code texts ends normally and prints, per operation and in
   * order, its header and one success entry per documented status returned;
   * the intended reader adds one failure entry per failing trial after them.
   */
  lemma CleanRunReport(reader: Reader, ops: seq<Operation>, bs: seq<Behaviour>, numTests: nat, contOnErr: bool)
    requires |bs| == |ops| && |ops| > 0
    requires forall i :: 0 <= i < |ops| ==> CleanOperation(ops[i])
    requires FirstStop(ops, bs, numTests, contOnErr) == |ops|
    ensures ReportPhase(reader, true, true, RunLog(ops, bs, numTests, Visited(ops, bs, numTests, contOnErr))) ==
      (Completed, Reports(reader, Groups(ops, bs, numTests)))
  {
    RunLogGroups(ops, bs, numTests, |ops|);
    assert ops[..|ops|] == ops && bs[..|bs|] == bs;
    CleanGroups(ops, bs, numTests);
    RoundTripReport(reader, Groups(ops, bs, numTests));
  }

  /** Whatever the log, the source's report phase prints no failure entry. */
  lemma ReportPhaseNoFailure(getReport: bool, logExists: bool, log: seq<string>)
    ensures NoFailure(ReportPhase(AsWritten, getReport, logExists, log).1)
  {
    NoFailurePrinted(ReadBack(log));
  }
}
