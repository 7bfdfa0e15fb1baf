# Testiny reporting session, modelled in Dafny

This project models `scripts/report_to_testiny.py`, the script that reports
the results of a local pytest run to the Testiny test-management service.
One call of its `main` does, in order:

1. reads `TESTINY_TOKEN` and raises `ValueError` when it is missing or empty;
2. checks the project id, which is the literal 2, so this check never fires;
3. loads `results.json`; a missing file or invalid JSON ends the session
   quietly, while any other failure to open or decode it escapes;
4. builds a `TestinyReporter` and opens an automation test run titled
   `Pytest Automation Run [<timestamp>]`; a `RequestException` here ends
   the session;
5. walks `results['tests']` in order, resolves each test name through a
   static two-entry table, skips unmapped names, and submits one result per
   mapped test (`PASSED` exactly when the outcome is the string `"passed"`,
   otherwise `FAILED`); a failed submission is logged and the loop goes on;
6. completes the run once; a failure there is logged and not retried.

The network is a `Service` object: a log of the requests it received, each
accepted or rejected by an oracle fixed in advance. The oracle is the set of
log positions the service rejects and the run id it hands out. The pure
function `Reporting.Session` specifies a whole call of `main`: how it ends
and the exact sequence of requests it sends. It depends on the service only
through whether the run creation was accepted. Rejected submissions and a
rejected completion therefore cannot change what is sent. The method
`Reporting.ReportResults` is `main` itself: a loop over the records that
appends to the service's log. It is proved to send exactly the requests
`Session` specifies. The lemmas in `SessionProperties` then state the
session's guarantees over `Session` for all inputs.

Some malformed results files make `main` raise after the run was created.
The model keeps these paths:

- a top-level value that is not a JSON object (`AttributeError`);
- a `tests` value of `null`, a number or a boolean (`TypeError`);
- an element that is not an object (`AttributeError`);
- a `name` that is a list or an object (`TypeError`, unhashable key).

In these cases the run is never completed. This is why "completed exactly
once" is stated as an if-and-only-if with a normal return.

Files: `runtime.dfy` (Python-level values and exceptions), `results_file.dfy`
(the shape of `results.json` as the script reads it), `testiny_api.dfy`
(paths, payloads, requests and the service), `reporter.dfy`
(`TestinyReporter`), `session.dfy` (`Session` and `main`),
`session_properties.dfy` (the guarantees), `scenarios.dfy` (the
repository's login suite run through the model).

What the script does not do:

- it has no annotation-based id lookup: names resolve only through the static table;
- it returns no summary of counts;
- it swallows a failed completion, so the caller never sees it;
- its project id is the literal 2, so the check for a missing one is dead.

## Model

| member | source | states |
|---|---|---|
| TestinyApi.UrlKindsDistinct | scripts/report_to_testiny.py:20-62 | the create, result and complete paths never coincide, for any run and test-case ids |
| TestinyApi.ResultUrlInjective | scripts/report_to_testiny.py:42 | within one run, different external ids give different result paths |
| TestinyApi.CompleteUrlInjective | scripts/report_to_testiny.py:62 | different run ids give different completion paths |
| TestinyApi.Service.Post | scripts/report_to_testiny.py:31-34 | one POST is appended to the log, accepted exactly when the oracle does not reject its position |
| Reporter.TestinyReporter.constructor | scripts/report_to_testiny.py:10-16 | base URL is the Testiny API, headers carry `Bearer <token>`, and the project id is 2 whatever the argument |
| Reporter.TestinyReporter.CreateAutomationTestRun | scripts/report_to_testiny.py:18-38 | sends one create request (project 2, IN_PROGRESS, the given title) and returns the assigned id exactly when the service accepts it |
| Reporter.TestinyReporter.UpdateAutomationTestCaseResult | scripts/report_to_testiny.py:40-58 | sends one result request to the run's test-case path; a rejection is swallowed |
| Reporter.TestinyReporter.CompleteAutomationTestRun | scripts/report_to_testiny.py:60-75 | sends one COMPLETED request to the run's completion path; a rejection is swallowed |
| Reporting.Resolve | scripts/report_to_testiny.py:126 | a name resolves exactly when it is a string key of the table, to that key's id; only a list or object name raises |
| Reporting.StatusFor | scripts/report_to_testiny.py:131 | the status is PASSED iff the outcome is exactly the string "passed", and FAILED otherwise |
| Reporting.CommentFor | scripts/report_to_testiny.py:132 | the comment is the fixed prefix followed by the outcome's rendering (`None` when absent) |
| Reporting.FirstCrash | scripts/report_to_testiny.py:122-127 | finds the first record whose processing raises, or reports that none does |
| Reporting.ReportRecords | scripts/report_to_testiny.py:122-139 | the loop sends the results for the records before the first raising one (all of them if none raises) and returns that exception |
| Reporting.ReportResults | scripts/report_to_testiny.py:77-142 | `main` ends as `Session` says and appends exactly `Session`'s requests to the service's log |
| Reporting.ReportRun | scripts/report_to_testiny.py:104-142 | once the results are loaded, `main` ends as `RunSession` says and appends exactly its requests |
| Reporting.ReportCreatedRun | scripts/report_to_testiny.py:116-142 | once the run exists, `main` ends as `CreatedSession` says and appends exactly its requests |
| Reporting.Session | scripts/report_to_testiny.py:77-142 | nothing is sent unless the token is truthy and the file loaded; `main` returns having sent nothing exactly when the token is truthy and the file is missing or not JSON |
| Reporting.RunSession | scripts/report_to_testiny.py:104-142 | the first request is always the creation; a rejected creation is the only request and `main` returns; a normal return after an accepted creation ends with the completion of the assigned run |
| Reporting.CreatedSession | scripts/report_to_testiny.py:116-142 | after creation, `main` returns normally iff the tests value is iterable and no record raises; it then ends with the completion; otherwise only results were sent |
| Reporting.Classify | scripts/report_to_testiny.py:123-132 | a record raises only AttributeError or TypeError; a submitted record carries an id from the table and a status PASSED or FAILED |
| Reporting.Submissions | scripts/report_to_testiny.py:122-139 | the loop sends at most one request per record, and every one of them is a result request |
| Reporting.RunTitle | scripts/report_to_testiny.py:107-108 | the title is `Pytest Automation Run [`, the timestamp, then `]`, and the timestamp can be read back from it |
| ResultsFile.TestsOf | scripts/report_to_testiny.py:122 | `results.get('tests', [])` gives records iff the document is an object and its tests value is iterable; a non-object document raises AttributeError, anything else TypeError; a missing key gives no records |
| ResultsFile.Render | scripts/report_to_testiny.py:132 | the f-string renders an absent outcome as `None` and a string as itself |
| Runtime.Truthy | scripts/report_to_testiny.py:82 | a token passes the check iff it is set and non-empty |
| TestinyApi.Headers | scripts/report_to_testiny.py:12-15 | exactly the Authorization and Content-Type headers; the authorization is `Bearer ` followed by the token, which can be read back |
| TestinyApi.CreateUrl | scripts/report_to_testiny.py:20 | the run collection path extends the base URL |
| TestinyApi.ResultUrl | scripts/report_to_testiny.py:42 | a result path lies under the run collection and ends in `/result` |
| TestinyApi.CompleteUrl | scripts/report_to_testiny.py:62 | a completion path lies under the run collection and ends in `/complete` |
| TestinyApi.CreateRequest | scripts/report_to_testiny.py:20-28 | a creation request to the collection path, with the given project id and title and status IN_PROGRESS |
| TestinyApi.ResultRequest | scripts/report_to_testiny.py:42-49 | a result request to the run's test-case path, with the given status and comment and source `pytest` |
| TestinyApi.CompleteRequest | scripts/report_to_testiny.py:62-66 | a completion request to the run's completion path with status COMPLETED |
| SessionProperties.MappedPositions | scripts/report_to_testiny.py:116-129 | the increasing positions of exactly the records whose name is in the table |
| SessionProperties.ClassifyCases | scripts/report_to_testiny.py:122-132 | a record raises iff it is not an object or its name is unhashable; it is submitted iff mapped, with the table's id, status and comment |
| SessionProperties.SubmissionsFollowRecords | scripts/report_to_testiny.py:122-139 | the results sent are one per mapped record, in record order, each addressed to the run with that record's id, status and comment |
| SessionProperties.SubmissionsCount | scripts/report_to_testiny.py:122-139 | the loop sends as many results as there are mapped records, and no creation or completion |
| SessionProperties.SubmissionsCarryHeaders | scripts/report_to_testiny.py:134-139 | every result request carries the reporter's headers |
| SessionProperties.SessionShape | scripts/report_to_testiny.py:104-142 | after an accepted creation: creation, the loop's results, then completion unless a record raised |
| SessionProperties.MissingTokenRaisesFirst | scripts/report_to_testiny.py:79-83 | a missing or empty token raises ValueError with no request, whatever the results file |
| SessionProperties.ProjectIdCheckNeverFires | scripts/report_to_testiny.py:80-90 | no session raises the missing-project error |
| SessionProperties.UnreadableResultsSendNothing | scripts/report_to_testiny.py:93-101 | a missing or invalid results file returns with no request; another failure of `open` raises OSError and another failure of `json.load` raises its decoding error, both with no request |
| SessionProperties.CreateFailureAborts | scripts/report_to_testiny.py:109-113 | a rejected creation is the only request: no result, no completion, normal return |
| SessionProperties.CreateComesFirst | scripts/report_to_testiny.py:104-110 | a session sends requests iff token and file are usable; the first is the only creation, in project 2 with status IN_PROGRESS |
| SessionProperties.CompletedExactlyOnce | scripts/report_to_testiny.py:109-142 | at most one completion; exactly one iff the creation was accepted and `main` returned normally; it is the last request and targets the assigned run id |
| SessionProperties.SubmittedInRecordOrder | scripts/report_to_testiny.py:116-139 | after an accepted creation, requests 1..n are the results of the mapped records walked, in order, and there are exactly n result requests |
| SessionProperties.WellFormedResultsComplete | scripts/report_to_testiny.py:121-142 | with a well-shaped results file and an accepted creation, `main` returns normally and completes the run last; no `tests` key gives only creation and completion |
| SessionProperties.RequestsCarryToken | scripts/report_to_testiny.py:12-15 | every request of a session carries the headers built from its token |
| Scenarios.LoginSuiteReported | scripts/report_to_testiny.py:116-142 | the login suite, with records named by bare function names, yields creation, PASSED for TC_LOGIN_001 and TC_LOGIN_002, then completion; the two unmapped tests are skipped |
| Scenarios.LoginSuiteResults | scripts/report_to_testiny.py:122-139 | walking the login suite raises nowhere and sends the two PASSED results in suite order |
| Scenarios.MissingOutcomeReportedFailed | scripts/report_to_testiny.py:124-132 | a mapped record without outcome is reported FAILED with a comment ending in `None` |
| Scenarios.RejectedResultScenario | scripts/report_to_testiny.py:51-58 | when the first of two results is rejected, the second is still sent and the run is still completed |

## Left out

- Timestamps (`start_time`, `execution_time`, `end_time`, the clock in the run title): the title takes the timestamp as an input and the payloads omit the times.
- HTTP transport, status codes and the printing of non-200 bodies: each request is reduced to accepted or rejected. A rejection stands for any `RequestException`; other exceptions from `requests` are not modelled.
- Decoding the creation reply (`response.json()["id"]`): the run id is an input of the service oracle. The `KeyError` raised by a reply without `id` is not modelled.
- Reading and decoding `results.json`: the load result is an input. Python's `str()` rendering of non-string outcomes is an opaque input too.
- All `print` logging, including the skip and failure messages.
- `tests/conftest.py`: pytest marker glue that copies a `testiny_id` marker into an `externalId` user property. Nothing in `scripts/report_to_testiny.py` reads that property.
- `tests/test_login.py`: the suite being reported. Its test names feed the scenarios. Nothing in `scripts/report_to_testiny.py` reads its `testinyId` docstrings.
- Which exception `json.load` raises on a non-JSONDecodeError failure: `UnicodeDecodeError` and `RecursionError` are both modelled as one `DecodeError`.
