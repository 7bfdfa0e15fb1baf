/** One run of the script's `main`: check the token, load the results,
    open a run, report each mapped test, close the run. `Session` is the
    specification: how `main` ends and the requests it sends, given its
    inputs and whether the service accepts the run creation. `ReportResults`
    is `main` itself, proved to send exactly those requests. */
module Reporting {
  import opened Runtime
  import opened ResultsFile
  import opened TestinyApi
  import opened Reporter

  /** The project id `main` uses: a literal, not read from the environment. */
  const MainProjectId: int := 2

  const TokenMessage: string := "TESTINY_TOKEN environment variable must be set"
  const ProjectIdMessage: string :=
    "TESTINY_PROJECT_ID environment variable must be set.\n"
    + "You can find your project ID in the URL when viewing your project in Testiny:\n"
    + "https://app.testiny.io/projects/YOUR-PROJECT-ID/..."

  const RunTitlePrefix: string := "Pytest Automation Run ["
  const CommentPrefix: string := "Automated test execution from pytest - "
  const Passed: string := "PASSED"
  const Failed: string := "FAILED"

  /** The static table from local test names to Testiny external ids. */
  const ExternalIdMap: map<string, string> :=
    map["test_valid_login" := "TC_LOGIN_001", "test_invalid_login" := "TC_LOGIN_002"]

  /** The run title, built around an opaque local timestamp. */
  function RunTitle(timestamp: string): (title: string)
    ensures |title| == |RunTitlePrefix| + |timestamp| + 1
    ensures title[..|RunTitlePrefix|] == RunTitlePrefix && title[|title| - 1] == ']'
    ensures title[|RunTitlePrefix|..|title| - 1] == timestamp
  {
    RunTitlePrefix + timestamp + "]"
  }

  /** `external_id_map.get(test_name)`: an exact, case-sensitive lookup.
      Only a string can equal a key; a list or object as the name cannot be
      hashed and raises. */
  function Resolve(name: Field): (r: Result<Option<string>>)
    ensures r.Failure? <==> name.Compound?
    ensures r.Success? && r.value.Some? <==> name.Str? && name.text in ExternalIdMap
    ensures r.Success? && r.value.Some? ==> r.value.value == ExternalIdMap[name.text]
  {
    match name
    case Absent => Success(None)
    case Str(s) => if s in ExternalIdMap then Success(Some(ExternalIdMap[s])) else Success(None)
    case Scalar(_) => Success(None)
    case Compound(_) => Failure(TypeError)
  }

  /** The status reported for a local outcome. */
  function StatusFor(outcome: Field): (status: string)
    ensures status == Passed <==> outcome == Str("passed")
    ensures status == Failed <==> outcome != Str("passed")
  {
    if outcome == Str("passed") then Passed else Failed
  }

  /** The comment reported with a result: a fixed prefix, then the outcome
      as an f-string renders it. */
  function CommentFor(outcome: Field): (comment: string)
    ensures |comment| == |CommentPrefix| + |Render(outcome)|
    ensures comment[..|CommentPrefix|] == CommentPrefix
    ensures comment[|CommentPrefix|..] == Render(outcome)
  {
    CommentPrefix + Render(outcome)
  }

  /** What the loop body does with one element of `results['tests']`. */
  datatype Step = Crash(error: Error) | Skip | Submit(externalId: string, status: string, comment: string)

  function Classify(record: Record): (step: Step)
    ensures step.Crash? ==> step.error == AttributeError || step.error == TypeError
    ensures step.Submit? ==> step.externalId in ExternalIdMap.Values
    ensures step.Submit? ==> step.status == Passed || step.status == Failed
  {
    match record
    case NonObject => Crash(AttributeError)
    case Entry(name, outcome) =>
      match Resolve(name)
      case Failure(e) => Crash(e)
      case Success(id) =>
        if id.None? || id.value == "" then Skip
        else Submit(id.value, StatusFor(outcome), CommentFor(outcome))
  }

  /** The position of the first record whose processing raises, if any. */
  function FirstCrash(records: seq<Record>): (k: Option<nat>)
    ensures k.Some? ==> k.value < |records| && Classify(records[k.value]).Crash?
    ensures k.Some? ==> forall j :: 0 <= j < k.value ==> !Classify(records[j]).Crash?
    ensures k.None? <==> forall j :: 0 <= j < |records| ==> !Classify(records[j]).Crash?
  {
    if records == [] then None
    else if Classify(records[0]).Crash? then Some(0)
    else
      match FirstCrash(records[1..])
      case None => None
      case Some(k) => Some(k + 1)
  }

  /** The result requests sent while walking `records` (none of which
      raises), in order. */
  function Submissions(headers: map<string, string>, runId: string, records: seq<Record>): (rs: seq<Request>)
    ensures |rs| <= |records|
    ensures forall i :: 0 <= i < |rs| ==> KindOf(rs[i]) == ResultKind
  {
    if records == [] then []
    else
      var last := Classify(records[|records| - 1]);
      Submissions(headers, runId, records[..|records| - 1])
        + if last.Submit? then [ResultRequest(BaseUrl, headers, runId, last.externalId, last.status, last.comment)]
          else []
  }

  /** How a session ends and what it sends. */
  datatype SessionResult = SessionResult(ending: Ending, requests: seq<Request>)

  /** The specification of `main`. `createAccepted` is the service's answer
      to the run creation and `runId` the id it assigns; the answers to the
      other requests cannot influence anything, since they are swallowed. */
  function Session(token: Option<string>, load: LoadResult, timestamp: string,
                   createAccepted: bool, runId: string): (s: SessionResult)
    ensures s.requests != [] ==> Truthy(token) && load.Loaded?
    ensures s.ending == Returned && s.requests == [] <==>
              Truthy(token) && (load.FileNotFound? || load.InvalidJson?)
  {
    if !Truthy(token) then SessionResult(Raised(ValueError(TokenMessage)), [])
    else if MainProjectId == 0 then SessionResult(Raised(ValueError(ProjectIdMessage)), [])
    else
      match load
      case FileNotFound => SessionResult(Returned, [])
      case InvalidJson => SessionResult(Returned, [])
      case OpenFailed => SessionResult(Raised(OSError), [])
      case DecodeFailed => SessionResult(Raised(DecodeError), [])
      case Loaded(doc) => RunSession(token.value, doc, timestamp, createAccepted, runId)
  }

  /** The part of `main` after the results are loaded: open the run, walk
      the records, complete the run. */
  function RunSession(apiToken: string, doc: Document, timestamp: string,
                      createAccepted: bool, runId: string): (s: SessionResult)
    ensures s.requests != [] && s.requests[0] == CreateRequest(BaseUrl, Headers(apiToken), 2, RunTitle(timestamp))
    ensures !createAccepted ==> s == SessionResult(Returned, s.requests[..1])
    ensures createAccepted && s.ending == Returned ==>
              s.requests[|s.requests| - 1] == CompleteRequest(BaseUrl, Headers(apiToken), runId)
  {
    var headers := Headers(apiToken);
    // the reporter ignores the project id it is given and always uses 2
    var create := CreateRequest(BaseUrl, headers, 2, RunTitle(timestamp));
    if !createAccepted then SessionResult(Returned, [create])
    else
      var rest := CreatedSession(headers, doc, runId);
      SessionResult(rest.ending, [create] + rest.requests)
  }

  /** The part of `main` after the run was created: walk the records and
      complete the run unless one of them raises. */
  function CreatedSession(headers: map<string, string>, doc: Document, runId: string): (s: SessionResult)
    ensures s.ending == Returned <==> TestsOf(doc).Success? && FirstCrash(TestsOf(doc).value).None?
    ensures s.ending == Returned ==> s.requests != [] && s.requests[|s.requests| - 1] == CompleteRequest(BaseUrl, headers, runId)
    ensures s.ending != Returned ==> forall i :: 0 <= i < |s.requests| ==> KindOf(s.requests[i]) == ResultKind
  {
    match TestsOf(doc)
    case Failure(e) => SessionResult(Raised(e), [])
    case Success(records) =>
      match FirstCrash(records)
      case Some(k) => SessionResult(Raised(Classify(records[k]).error), Submissions(headers, runId, records[..k]))
      case None => SessionResult(Returned, Submissions(headers, runId, records) + [CompleteRequest(BaseUrl, headers, runId)])
  }

  /** `main`: `token` is the value of `TESTINY_TOKEN`, `load` the result of
      reading `results.json` and `timestamp` the local time used in the run
      title. The project-id check is omitted: `project_id` is the literal 2,
      so the check can never fire (see `ProjectIdCheckNeverFires`). */
  method ReportResults(token: Option<string>, load: LoadResult, timestamp: string, service: Service)
    returns (ending: Ending)
    requires service.Valid()
    modifies service
    ensures service.Valid()
    ensures var s := Session(token, load, timestamp, |old(service.log)| !in service.rejects, service.assignedId);
            ending == s.ending && Requests(service.log) == Requests(old(service.log)) + s.requests
  {
    if !Truthy(token) {
      return Raised(ValueError(TokenMessage));
    }
    match load {
      case FileNotFound => return Returned;
      case InvalidJson => return Returned;
      case OpenFailed => return Raised(OSError);
      case DecodeFailed => return Raised(DecodeError);
      case Loaded(doc) => ending := ReportRun(token.value, MainProjectId, doc, timestamp, service);
    }
  }

  /** `main` from line 104 on, once the results are loaded. */
  method ReportRun(apiToken: string, projectId: int, doc: Document, timestamp: string, service: Service)
    returns (ending: Ending)
    requires service.Valid()
    modifies service
    ensures service.Valid()
    ensures var s := RunSession(apiToken, doc, timestamp, |old(service.log)| !in service.rejects, service.assignedId);
            ending == s.ending && Requests(service.log) == Requests(old(service.log)) + s.requests
  {
    var reporter := new TestinyReporter(apiToken, projectId);
    var created := reporter.CreateAutomationTestRun(service, RunTitle(timestamp));
    if created.None? {
      return Returned;
    }
    ending := ReportCreatedRun(reporter, service, created.value, doc);
  }

  /** `main` from line 116 on, once the run `runId` exists. */
  method ReportCreatedRun(reporter: TestinyReporter, service: Service, runId: string, doc: Document)
    returns (ending: Ending)
    requires service.Valid() && reporter.baseUrl == BaseUrl
    modifies service
    ensures service.Valid()
    ensures var s := CreatedSession(reporter.headers, doc, runId);
            ending == s.ending && Requests(service.log) == Requests(old(service.log)) + s.requests
  {
    var tests := TestsOf(doc);
    if tests.Failure? {
      return Raised(tests.error);
    }
    var raised := ReportRecords(reporter, service, runId, tests.value);
    if raised.Some? {
      return Raised(raised.value);
    }
    assert tests.value[..|tests.value|] == tests.value;
    reporter.CompleteAutomationTestRun(service, runId);
    return Returned;
  }

  /** The `for` loop of `main`: reports each record in order until one
      raises. Returns the exception, if any. */
  method ReportRecords(reporter: TestinyReporter, service: Service, runId: string, records: seq<Record>)
    returns (raised: Option<Error>)
    requires service.Valid() && reporter.baseUrl == BaseUrl
    modifies service
    ensures service.Valid()
    ensures raised.None? <==> FirstCrash(records).None?
    ensures raised.Some? ==> raised.value == Classify(records[FirstCrash(records).value]).error
    ensures Requests(service.log) == Requests(old(service.log))
              + Submissions(reporter.headers, runId, records[..if raised.Some? then FirstCrash(records).value else |records|])
  {
    var i := 0;
    while i < |records|
      invariant 0 <= i <= |records|
      invariant service.Valid()
      invariant forall j :: 0 <= j < i ==> !Classify(records[j]).Crash?
      invariant Requests(service.log) == Requests(old(service.log)) + Submissions(reporter.headers, runId, records[..i])
    {
      assert records[..i + 1][..i] == records[..i];
      match Classify(records[i]) {
        case Crash(e) =>
          return Some(e);
        case Skip =>
        case Submit(externalId, status, comment) =>
          reporter.UpdateAutomationTestCaseResult(service, runId, externalId, status, comment);
      }
      i := i + 1;
    }
    assert records[..i] == records;
    return None;
  }
}
