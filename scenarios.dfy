/** Concrete sessions over the repository's own login suite. */
module Scenarios {
  import opened Runtime
  import opened ResultsFile
  import opened TestinyApi
  import opened Reporting

  /** The four tests of `tests/test_login.py`, assuming the results file
      names each record by the bare test function name (pytest's own ids
      for these parametrized tests carry a `[...]` suffix, which the table
      would not map): two mapped ones that pass, then two unmapped ones. */
  const LoginSuite: seq<Record> := [
    Entry(Str("test_valid_login"), Str("passed")),
    Entry(Str("test_invalid_login"), Str("passed")),
    Entry(Str("test_force_fail"), Str("failed")),
    Entry(Str("test_force_pass"), Str("passed"))
  ]

  function LoginResult(headers: map<string, string>, runId: string, externalId: string): Request
  {
    ResultRequest(BaseUrl, headers, runId, externalId, "PASSED", "Automated test execution from pytest - passed")
  }

  /** Reporting the login suite creates the run, reports the two mapped
      tests as PASSED with the table's ids, skips the two unmapped ones and
      completes the run. */
  lemma LoginSuiteReported(token: string, timestamp: string, runId: string)
    requires token != ""
    ensures var h := Headers(token);
            Session(Some(token), Loaded(Object(Iterable(LoginSuite))), timestamp, true, runId)
              == SessionResult(Returned, [CreateRequest(BaseUrl, h, 2, RunTitle(timestamp)),
                                          LoginResult(h, runId, "TC_LOGIN_001"),
                                          LoginResult(h, runId, "TC_LOGIN_002"),
                                          CompleteRequest(BaseUrl, h, runId)])
  {
    LoginSuiteResults(Headers(token), runId);
  }

  /** Walking the login suite raises nowhere and sends the two PASSED
      results, in suite order. */
  lemma LoginSuiteResults(h: map<string, string>, runId: string)
    ensures FirstCrash(LoginSuite).None?
    ensures Submissions(h, runId, LoginSuite) == [LoginResult(h, runId, "TC_LOGIN_001"), LoginResult(h, runId, "TC_LOGIN_002")]
  {
    var r1, r2 := LoginResult(h, runId, "TC_LOGIN_001"), LoginResult(h, runId, "TC_LOGIN_002");
    assert CommentFor(Str("passed")) == "Automated test execution from pytest - passed";
    assert Classify(LoginSuite[0]) == Submit("TC_LOGIN_001", "PASSED", "Automated test execution from pytest - passed");
    assert Classify(LoginSuite[1]) == Submit("TC_LOGIN_002", "PASSED", "Automated test execution from pytest - passed");
    assert Classify(LoginSuite[2]).Skip? && Classify(LoginSuite[3]).Skip?;
    assert LoginSuite[..1][..0] == [];
    assert Submissions(h, runId, LoginSuite[..1]) == [r1];
    assert LoginSuite[..2][..1] == LoginSuite[..1];
    assert Submissions(h, runId, LoginSuite[..2]) == [r1, r2];
    assert LoginSuite[..3][..2] == LoginSuite[..2];
    assert Submissions(h, runId, LoginSuite[..3]) == [r1, r2];
    assert LoginSuite[..3] == LoginSuite[..|LoginSuite| - 1];
  }

  /** A record without an outcome is reported as FAILED, and its comment
      ends in the text Python prints for `None`. */
  lemma MissingOutcomeReportedFailed(token: string, timestamp: string, runId: string)
    requires token != ""
    ensures var h := Headers(token);
            Session(Some(token), Loaded(Object(Iterable([Entry(Str("test_valid_login"), Absent)]))),
                    timestamp, true, runId).requests
              == [CreateRequest(BaseUrl, h, 2, RunTitle(timestamp)),
                  ResultRequest(BaseUrl, h, runId, "TC_LOGIN_001", "FAILED", "Automated test execution from pytest - None"),
                  CompleteRequest(BaseUrl, h, runId)]
  {
    var h := Headers(token);
    var records := [Entry(Str("test_valid_login"), Absent)];
    assert CommentFor(Absent) == "Automated test execution from pytest - None";
    assert records[..0] == [];
    assert Submissions(h, runId, records)
             == [ResultRequest(BaseUrl, h, runId, "TC_LOGIN_001", "FAILED", "Automated test execution from pytest - None")];
  }

  /** With two mapped tests and a service that rejects the first result,
      the second result is still sent and the run is still completed: the
      log holds four exchanges and only the first result was refused. */
  method RejectedResultScenario(token: string, timestamp: string) returns (ending: Ending, log: seq<Exchange>)
    requires token != ""
    ensures ending == Returned
    ensures var h := Headers(token);
            log == [Exchange(CreateRequest(BaseUrl, h, 2, RunTitle(timestamp)), true),
                    Exchange(LoginResult(h, "run-1", "TC_LOGIN_001"), false),
                    Exchange(LoginResult(h, "run-1", "TC_LOGIN_002"), true),
                    Exchange(CompleteRequest(BaseUrl, h, "run-1"), true)]
  {
    var service := new Service({1}, "run-1");
    ending := ReportResults(Some(token), Loaded(Object(Iterable(LoginSuite))), timestamp, service);
    LoginSuiteReported(token, timestamp, "run-1");
    log := service.log;
    assert Requests(log) == Requests([]) + Session(Some(token), Loaded(Object(Iterable(LoginSuite))), timestamp, true, "run-1").requests;
    assert |log| == 4;
    assert log[0].accepted && !log[1].accepted && log[2].accepted && log[3].accepted;
  }
}
