/** `TestinyReporter`: fixed connection settings and the three calls to the
    service. Its fields are set once by the constructor and never change. */
module Reporter {
  import opened Runtime
  import opened TestinyApi

  class TestinyReporter {
    const baseUrl: string
    const headers: map<string, string>
    const projectId: int

    /** The `project_id` argument is ignored: the project is always 2. */
    constructor (apiToken: string, projectId: int)
      ensures baseUrl == BaseUrl
      ensures headers == Headers(apiToken)
      ensures this.projectId == 2
    {
      baseUrl := BaseUrl;
      headers := Headers(apiToken);
      this.projectId := 2;
    }

    /** Opens a run titled `name`. On acceptance the run id the service
        assigns is returned; on rejection the `RequestException` is re-raised,
        which the model returns as `None`. */
    method CreateAutomationTestRun(service: Service, name: string) returns (runId: Option<string>)
      requires service.Valid()
      modifies service
      ensures service.Valid()
      ensures service.log == old(service.log)
                + [Exchange(CreateRequest(baseUrl, headers, projectId, name), runId.Some?)]
      ensures runId.Some? <==> |old(service.log)| !in service.rejects
      ensures runId.Some? ==> runId.value == service.assignedId
      ensures Requests(service.log)
                == Requests(old(service.log)) + [CreateRequest(baseUrl, headers, projectId, name)]
    {
      var accepted := service.Post(CreateRequest(baseUrl, headers, projectId, name));
      if accepted {
        runId := Some(service.assignedId);
      } else {
        runId := None;
      }
    }

    /** Submits one test-case result. A rejection is caught and only logged:
        nothing is returned and nothing is raised either way. */
    method UpdateAutomationTestCaseResult(service: Service, testRunId: string,
                                          testCaseExternalId: string, status: string, comment: string)
      requires service.Valid()
      modifies service
      ensures service.Valid()
      ensures service.log == old(service.log)
                + [Exchange(ResultRequest(baseUrl, headers, testRunId, testCaseExternalId, status, comment),
                            |old(service.log)| !in service.rejects)]
      ensures Requests(service.log) == Requests(old(service.log))
                + [ResultRequest(baseUrl, headers, testRunId, testCaseExternalId, status, comment)]
    {
      var _ := service.Post(ResultRequest(baseUrl, headers, testRunId, testCaseExternalId, status, comment));
    }

    /** Marks the run completed. A rejection is caught, logged and not
        retried. */
    method CompleteAutomationTestRun(service: Service, testRunId: string)
      requires service.Valid()
      modifies service
      ensures service.Valid()
      ensures service.log == old(service.log)
                + [Exchange(CompleteRequest(baseUrl, headers, testRunId), |old(service.log)| !in service.rejects)]
      ensures Requests(service.log) == Requests(old(service.log)) + [CompleteRequest(baseUrl, headers, testRunId)]
    {
      var _ := service.Post(CompleteRequest(baseUrl, headers, testRunId));
    }
  }
}
