# swagger-conformance run loop, in Dafny

A model of the conformance run of `swaggercheck` (`swaggercheck/_basictests.py`) and the
properties proved about it.

The run goes like this:

- `api_conformance_test` builds a Swagger client and prints which authentication it uses.
- It then hands every operation of the API, in order, to `operation_conformance_test`.
- That function appends a `test [<verb>] <path>` record to `log.txt`.
- It skips the operation if one of its parameters has no type.
- Otherwise it runs up to `num_tests` trials. Each trial passes when the returned status is
  one of the operation's documented response codes. A pass appends `ok <status>`; a failure
  appends `failed <status> <codes>`.
- A failure also creates a watchdog file when the run is not to continue on error. The file
  is checked after the operation's last trial, and ends the process with exit status 1.
- A `ValueError` while building the trials also ends the run with exit 1. So does a client
  that cannot be built.
- Once every operation has run, the log is read back line by line, as Python's text-mode
  iteration splits the file: `\r` and `\r\n` become `\n`, and every line ends just after a
  `\n`. A path holding a newline therefore reads back as more than one line. Each `test`
  record opens a group. `ok` records are tallied per status code. `print_report` prints each group's
  tallies.

The model is split into modules:

- `Text`: Python's `str(n)` and `str.split`.
- `Log`: the three record shapes, their exact text, and how the reader tokenises each line.
- `LogFile`: the log file's text and how iterating over it splits that text into lines.
- `Report`: the reader loop and `print_report`.
- `RoundTrip`: the writer/reader round trip.
- `Conformance`: the run loop and the per-operation test. The log file is a sequence of
  written lines, the watchdog file is a boolean, and every way the process ends is an `Exit`
  value.
- `Scenarios`: concrete runs.
- `Seqs`: small facts about sequences that the proofs share.

The client is an input. A flag says whether building it fails. Each operation has a
`Behaviour`: the statuses the client returns, trial by trial, and whether building the
trials raises `ValueError`.

Where the code and the written description of the tool differ, the model follows the code:

- With fail-fast enabled, a failure does not stop the current operation's remaining trials.
  The watchdog file is checked only after all of them have run (`Scenarios.FailFast`).
- A fail-fast abort ends the process before the report phase, so no failure entry is
  printed for it.
- A token does not change the printed authentication label. The label is ` authenticated`
  only when both username and password are given.
- With `get_report` on and no operation at all, no log file is ever created. Opening it then
  raises `FileNotFoundError`.
- The reader never reports a failure: see Findings.

## Model

| member | source | states |
|---|---|---|
| Text.NatToString | swaggercheck/_basictests.py:206 | `str(status)` is a non-empty run of decimal digits with no leading zero |
| Text.ParseNatToString | swaggercheck/_basictests.py:206 | reading the decimal text of a status back gives the status |
| Text.NatToStringInjective | swaggercheck/_basictests.py:115-118 | two statuses share a tally key exactly when they are equal |
| Text.Split | swaggercheck/_basictests.py:93 | `line.split(" ")` gives at least one piece, and joining the pieces with the separator gives the line back |
| Text.SplitPieces | swaggercheck/_basictests.py:93 | no piece holds the separator, and every piece is made of characters of the line |
| Text.SplitJoin | swaggercheck/_basictests.py:93 | splitting undoes joining pieces that hold no separator |
| Log.Line | swaggercheck/_basictests.py:168-218 | every record is written as text of at least two characters ending in a newline |
| Log.Tokens | swaggercheck/_basictests.py:93-94 | the reader gets one token per space-separated piece of the line; no token holds a space and the last holds no newline |
| Log.TokensTest | swaggercheck/_basictests.py:93-94 | a header record with a space-free, newline-free verb and path reads back as `test`, `[verb]`, path |
| Log.TokensPassed | swaggercheck/_basictests.py:93-94 | an `ok` record reads back as `ok` and the status's decimal text |
| Log.TokensFailed | swaggercheck/_basictests.py:93-94 | a `failed` record reads back as `failed`, the status, then the documented codes split on their spaces |
| Log.LinesOfAppend | swaggercheck/_basictests.py:167-168 | writing two runs of records to the log, one after the other, leaves their lines in that order |
| Log.TokensFailedTag | swaggercheck/_basictests.py:218 | whatever the codes, the first token of a `failed` record is `failed` |
| Report.Bump | swaggercheck/_basictests.py:114-118 | after an `ok` line the dictionary is non-empty and holds at most one entry more than before |
| Report.LookupAt | swaggercheck/_basictests.py:127-135 | with no key stored twice, looking up a stored key finds that entry's own count |
| Report.BumpKeys | swaggercheck/_basictests.py:114-118 | an `ok` line adds its key at the end when it is new, and otherwise leaves the key order as it was |
| Report.BumpLookup | swaggercheck/_basictests.py:114-118 | an `ok` line raises its key's count by one (from 0 for a new key) and no other key's count |
| Report.BumpNew | swaggercheck/_basictests.py:115-116 | a key not yet in the dictionary is stored with count 1 after every existing entry |
| Report.BumpUnique | swaggercheck/_basictests.py:114-118 | counting an `ok` line never stores a key twice |
| Report.SuccessEntries | swaggercheck/_basictests.py:127-135 | the first loop of `print_report` prints one success entry per string key, in dictionary order |
| Report.FailureEntries | swaggercheck/_basictests.py:136-144 | the second loop prints one failure entry per `dic[i]` for `i` below `nb_error`, or stops with `KeyError`/`IndexError` |
| Report.FailLinesStop | swaggercheck/_basictests.py:136-144 | the first failure entry that raises ends the loop with that exception |
| Report.PrintReport | swaggercheck/_basictests.py:126-144 | `print_report` prints the success entries, then the failure entries; with `nb_error` at 0 it prints only success entries and never raises |
| Report.ReportWithoutErrors | swaggercheck/_basictests.py:136 | with `nb_error` at 0 the report is the success entries alone |
| Report.ReadLine | swaggercheck/_basictests.py:93-121 | one reader iteration dispatches on the first token: `test` flushes the previous group and prints a header, `ok` bumps the tally, the fail tag stores a note |
| Report.Step | swaggercheck/_basictests.py:93-121 | one reader iteration only appends to what is printed, and only a `test` line prints anything or clears `first` |
| Report.ReadLog | swaggercheck/_basictests.py:92-121 | the reader loop reads every line in order, and its state is what reading the lines one by one gives, or the first exception raised |
| Report.FoldStep | swaggercheck/_basictests.py:92-121 | reading one more line continues from the state the earlier lines left |
| Report.ReduceLog | swaggercheck/_basictests.py:87-123 | the reader loop over every line, then the last `print_report`, or the first exception |
| Report.FoldPrefixErr | swaggercheck/_basictests.py:92-121 | once a line raises, the lines after it change nothing |
| RoundTrip.StepFailedIntended | swaggercheck/_basictests.py:119-121 | with the intended reader, a `failed` line stores note `nb_error` holding the status and the whole documented-codes text, and counts one more error |
| Report.FailedLineIgnored | swaggercheck/_basictests.py:120-121 | the source's reader leaves its state unchanged on every `failed` line the writer emits |
| Report.NoFailurePrinted | swaggercheck/_basictests.py:87-144 | whatever the log holds, the source's reader prints no failure entry |
| RoundTrip.TallyCounts | swaggercheck/_basictests.py:114-118 | the tally for a status's text is the number of `ok` records with that status |
| RoundTrip.TallyKeys | swaggercheck/_basictests.py:114-118 | a status has a tally entry exactly when some passing trial returned it |
| RoundTrip.TallyUnique | swaggercheck/_basictests.py:114-118 | no status text appears twice among the tally's keys |
| RoundTrip.TallyKeyStatus | swaggercheck/_basictests.py:114-118 | every tally key is the decimal text of a status some passing trial returned |
| RoundTrip.PrintedTally | swaggercheck/_basictests.py:127-135 | every printed success entry is the text of a returned status with the number of `ok` records for that status |
| RoundTrip.ReadTrials | swaggercheck/_basictests.py:114-121 | reading a group's trial lines builds exactly the group's tallies, notes and error count |
| RoundTrip.ReadGroup | swaggercheck/_basictests.py:95-112 | a `test` line prints the previous group's report, then the new header, and starts an empty dictionary |
| RoundTrip.GroupBody | swaggercheck/_basictests.py:123 | the final `print_report` of a group prints exactly that group's expected entries |
| LogFile.Newlines | swaggercheck/_basictests.py:88 | opening the log in text mode turns every `\r\n` and lone `\r` into `\n`, so no `\r` is left |
| LogFile.Lines | swaggercheck/_basictests.py:92 | iterating over the file gives non-empty lines that join back into its text; each line ends at its first newline, and all but the last end in one |
| LogFile.LineWhole | swaggercheck/_basictests.py:168-218 | a record whose verb, path and codes hold no newline or carriage return is written as exactly one line |
| LogFile.ReadBackWhole | swaggercheck/_basictests.py:88-92 | written lines that each end in their only newline, with no carriage return, read back as exactly the lines written |
| RoundTrip.RoundTripReport | swaggercheck/_basictests.py:87-123 | the log of any clean groups reads back line for line as written; reading it prints, group by group in log order, the header and the per-status tallies (with the intended reader, the failures too), and raises nothing |
| Conformance.AuthLabel | swaggercheck/_basictests.py:53-55 | the label is ` authenticated` exactly when username and password are both given, ` basic` otherwise |
| Conformance.TrialRecord | swaggercheck/_basictests.py:202-218 | a trial passes exactly when its status is documented; a pass records `ok` with the status, a failure records the status and the documented codes |
| Conformance.TrialRecords | swaggercheck/_basictests.py:202-218 | one record per trial, in trial order |
| Conformance.Trials | swaggercheck/_basictests.py:170-187 | the trials run are a prefix of the client's answers, at most `num_tests` of them, and none for a skipped operation or one whose trials cannot be built |
| Conformance.FirstStop | swaggercheck/_basictests.py:67-85 | the run stops after the first operation that raises `ValueError` or creates the watchdog file, and no operation before it stops the run |
| Conformance.FailsSome | swaggercheck/_basictests.py:202-231 | an operation's trials fail exactly when one of them returned an undocumented status |
| Conformance.RunTrial | swaggercheck/_basictests.py:188-225 | one trial appends its record when reporting, and sets the watchdog exactly on a failure when not continuing on error |
| Conformance.RunTrials | swaggercheck/_basictests.py:181-227 | the trials append one record each, in order; the watchdog ends set exactly when some trial failed while not continuing on error |
| Conformance.SupportedTypes | swaggercheck/_basictests.py:170-177 | the operation gets trials exactly when no parameter type is falsy |
| Conformance.TestOperation | swaggercheck/_basictests.py:170-231 | a skipped operation writes nothing more and leaves the watchdog as it was; otherwise one record per trial run, then `ValueError`, exit, or return |
| Conformance.OperationConformanceTest | swaggercheck/_basictests.py:147-231 | every visited operation writes its header first, then its trial records; the watchdog is set only by a failure when not continuing on error; the outcome is return, `ValueError` or exit |
| Conformance.RunLogGroups | swaggercheck/_basictests.py:67-85 | the log after the first `k` operations is the lines of their groups' records, in operation order |
| Conformance.VisitOperation | swaggercheck/_basictests.py:67-85 | one pass of the loop appends the operation's group to the log, and ends the loop exactly when this operation is the first to stop the run |
| Conformance.RunOperations | swaggercheck/_basictests.py:67-85 | operations are visited in order up to and including the first that stops the run; the log is their records, in order |
| Conformance.ApiConformanceTest | swaggercheck/_basictests.py:13-123 | a setup failure exits 1 before any operation or record; otherwise it prints the auth label, visits exactly the operations up to the first stop, exits 1 on a stop, and otherwise reads the log back, split into lines as Python's text-mode iteration splits it (`FileNotFoundError` with no operations) |
| Conformance.RunReportPhase | swaggercheck/_basictests.py:87-123 | after the last operation: nothing without `get_report`, `FileNotFoundError` when no log was written, otherwise the reader's report or its exception; never exit 1 |
| Conformance.PassedOfTrials | swaggercheck/_basictests.py:202-206 | the passing statuses among an operation's records are its trials' documented statuses, with their multiplicities |
| Conformance.OperationTally | swaggercheck/_basictests.py:114-118 | per operation, the tally for status `c` is the number of trials that returned `c` if `c` is documented, else there is none |
| Conformance.ContinueOnErrorVisitsAll | swaggercheck/_basictests.py:67-77 | continuing on error with no `ValueError`, every operation is visited and the log holds all their records |
| Conformance.FailFastStops | swaggercheck/_basictests.py:220-231 | not continuing on error, an operation with a failing trial is the last one visited at the latest |
| Conformance.CleanRunReport | swaggercheck/_basictests.py:87-123 | a run that visits every clean operation completes and prints each operation's header and tallies, in order |
| Conformance.ReportPhaseNoFailure | swaggercheck/_basictests.py:87-144 | the source's report phase never prints a failure entry |
| Scenarios.AllDocumented | swaggercheck/_basictests.py:202-206 | answers 200, 200, 404 with 200 and 404 documented print the header, `200` twice and `404` once |
| Scenarios.FailFast | swaggercheck/_basictests.py:220-231 | a 500 at trial two, not continuing on error, still logs trial three, sets the watchdog and visits no later operation |
| Scenarios.SkippedOperation | swaggercheck/_basictests.py:166-177 | an operation with an untyped parameter logs its header only and reports the header alone |
| Scenarios.NewlineInPath | swaggercheck/_basictests.py:88-94 | an operation with verb `G` and path `a`, newline, `ok 2` writes one record, which reads back as a header for path `a` and a tally of one for `2` |
| Scenarios.FailureDropped | swaggercheck/_basictests.py:120-121 | a logged failure of 500 is missing from the source's report and present in the intended one |

## Left out

- Hypothesis sampling, shrinking and settings: the statuses the client returns per operation are an input, and the model takes the first `num_tests` of them. Hypothesis may run fewer examples; a shorter status sequence models that. Its validation of `max_examples` is not modelled.
- `StrategyFactory` and `operation.parameters_strategy`: swaggercheck/strategies is not part of this model. The only effect kept is a possible `ValueError`.
- The client: `Client` construction and `client.request` are not part of this model (swaggercheck/client is not part of this model). A setup-failure flag and the status sequences stand for them. `token`, `security_name` and `extra_headers` only go to the client.
- `ValueError` is modelled as raised before the first trial. A `ValueError` raised by `client.request` part-way through the trials is not modelled, nor are the records written before it.
- Console output: the colorama colouring and every `print` outside the report are left out. That covers the connection messages, the per-operation and per-trial lines, the skip message and "Stopping after first failure". Report entries are kept as values.
- File I/O: `tempfile`, `os.remove` and `open` are left out. The log is a sequence of written lines that starts empty. Its text is those lines joined; text mode's translation of `\n` to the platform's line separator on write is not modelled. Reading back undoes it for every line the writer ends. The watchdog file is a boolean that starts false.
- `sys.exit` is the value `Exit1`. An uncaught exception is `Traceback` with the Python exception.
- Conformance.ApiConformanceTest: report entries printed before the report phase raises are not kept; the result holds no printed entries then.
- Conformance.TrialRecord: `str(operation.response_codes)` is an input text, because Python's set ordering is not modelled. The round-trip lemmas need it free of newlines and tabs, and need the verb and path free of spaces and newlines; Python's rendering of a set of integers meets the first condition.
- Statuses are natural numbers; a client returning something other than an integer is not modelled.
- swaggercheck/__main__.py (command-line parsing) and setup.py are not part of this model.

## Findings

| source | as written | input that shows it | evidently intended | confidence | as-written member | corrected member |
|---|---|---|---|---|---|---|
| swaggercheck/_basictests.py:120-121 | the reader matches the tag `fail`, but the writer (line 218) emits `failed`; `nb_error` is never incremented, and only the first code token is kept | one operation documenting 200 and 404 whose client returns 200, then 500, with `cont_on_err` on | every failing trial is stored as `dic[nb_error]`, `nb_error` grows by one, and `print_report` prints one FAIL entry with the status and the whole documented-codes text | not executed | Scenarios.FailureDropped | RoundTrip.RoundTripReport |
