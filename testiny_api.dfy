/** The three requests the reporter sends to the Testiny REST API, and the
    service itself as the session observes it: a log of requests, each
    accepted or rejected. Timestamps (`start_time`, `execution_time`,
    `end_time`) are left out of the payloads. */
module TestinyApi {
  import opened Runtime

  const BaseUrl: string := "https://app.testiny.io/api/v1"
  const RunsPath: string := "/automation-test-run"
  const InProgress: string := "IN_PROGRESS"
  const Completed: string := "COMPLETED"
  const RunDescription: string := "Automated test execution from CI/CD pipeline"
  const Source: string := "pytest"

  datatype Payload =
    | CreateRunBody(projectId: int, title: string, status: string, description: string, source: string)
    | ResultBody(status: string, comment: string, automationSource: string)
    | CompleteBody(status: string)

  /** One `requests.post(url, headers=..., json=payload)`. */
  datatype Request = Post(url: string, headers: map<string, string>, payload: Payload)

  /** The three kinds of request, told apart by their payload. */
  datatype Kind = CreateKind | ResultKind | CompleteKind

  function KindOf(r: Request): Kind
  {
    match r.payload
    case CreateRunBody(_, _, _, _, _) => CreateKind
    case ResultBody(_, _, _) => ResultKind
    case CompleteBody(_) => CompleteKind
  }

  /** The number of requests of one kind in a sequence of requests. */
  function Count(rs: seq<Request>, k: Kind): nat
  {
    if rs == [] then 0
    else Count(rs[..|rs| - 1], k) + (if KindOf(rs[|rs| - 1]) == k then 1 else 0)
  }

  /** The headers every request carries: a bearer token and the JSON type. */
  function Headers(apiToken: string): (h: map<string, string>)
    ensures h.Keys == {"Authorization", "Content-Type"}
    ensures |h["Authorization"]| == 7 + |apiToken|
    ensures h["Authorization"][..7] == "Bearer " && h["Authorization"][7..] == apiToken
  {
    map["Authorization" := "Bearer " + apiToken, "Content-Type" := "application/json"]
  }

  function CreateUrl(base: string): (url: string)
    ensures |url| == |base| + |RunsPath| && url[..|base|] == base
  {
    base + RunsPath
  }

  function ResultUrl(base: string, runId: string, externalId: string): (url: string)
    ensures |url| > |CreateUrl(base)| + 1 + 7
    ensures url[..|CreateUrl(base)| + 1] == CreateUrl(base) + "/"
    ensures url[|url| - 7..] == "/result"
  {
    base + RunsPath + "/" + runId + "/test-case/" + externalId + "/result"
  }

  function CompleteUrl(base: string, runId: string): (url: string)
    ensures |url| >= |CreateUrl(base)| + 1 + 9
    ensures url[..|CreateUrl(base)| + 1] == CreateUrl(base) + "/"
    ensures url[|url| - 9..] == "/complete"
  {
    base + RunsPath + "/" + runId + "/complete"
  }

  function CreateRequest(base: string, headers: map<string, string>, projectId: int, title: string): (r: Request)
    ensures KindOf(r) == CreateKind && r.url == CreateUrl(base) && r.headers == headers
    ensures r.payload.projectId == projectId && r.payload.title == title && r.payload.status == InProgress
  {
    Post(CreateUrl(base), headers, CreateRunBody(projectId, title, InProgress, RunDescription, Source))
  }

  function ResultRequest(base: string, headers: map<string, string>, runId: string,
                         externalId: string, status: string, comment: string): (r: Request)
    ensures KindOf(r) == ResultKind && r.url == ResultUrl(base, runId, externalId) && r.headers == headers
    ensures r.payload.status == status && r.payload.comment == comment && r.payload.automationSource == Source
  {
    Post(ResultUrl(base, runId, externalId), headers, ResultBody(status, comment, Source))
  }

  function CompleteRequest(base: string, headers: map<string, string>, runId: string): (r: Request)
    ensures KindOf(r) == CompleteKind && r.url == CompleteUrl(base, runId) && r.headers == headers
    ensures r.payload.status == Completed
  {
    Post(CompleteUrl(base, runId), headers, CompleteBody(Completed))
  }

  /** A request together with whether the service accepted it: a rejected
      one is a non-2xx reply or a transport failure, both of which surface
      as a `RequestException`. */
  datatype Exchange = Exchange(request: Request, accepted: bool)

  /** The requests of a log, in the order they were sent. */
  function Requests(log: seq<Exchange>): (rs: seq<Request>)
    ensures |rs| == |log|
    ensures forall i :: 0 <= i < |log| ==> rs[i] == log[i].request
  {
    seq(|log|, i requires 0 <= i < |log| => log[i].request)
  }

  /** The remote service. Its replies are an oracle fixed in advance: the
      positions in its log at which it rejects a request, and the run id it
      hands out when it accepts a run creation. */
  class Service {
    const rejects: set<nat>
    const assignedId: string
    var log: seq<Exchange>

    ghost predicate Valid()
      reads this
    {
      forall i :: 0 <= i < |log| ==> log[i].accepted == (i !in rejects)
    }

    constructor (rejects: set<nat>, assignedId: string)
      ensures Valid()
      ensures this.rejects == rejects && this.assignedId == assignedId && log == []
    {
      this.rejects := rejects;
      this.assignedId := assignedId;
      log := [];
    }

    /** Sends one request; the oracle decides whether it is accepted. */
    method Post(request: Request) returns (accepted: bool)
      requires Valid()
      modifies this
      ensures Valid()
      ensures accepted == (|old(log)| !in rejects)
      ensures log == old(log) + [Exchange(request, accepted)]
      ensures Requests(log) == Requests(old(log)) + [request]
    {
      accepted := |log| !in rejects;
      log := log + [Exchange(request, accepted)];
    }
  }

  /** The three request paths never coincide, whatever the run and test-case
      ids: creation, result submission and completion reach different
      endpoints. */
  lemma UrlKindsDistinct(base: string, runId: string, externalId: string)
    ensures CreateUrl(base) != ResultUrl(base, runId, externalId)
    ensures CreateUrl(base) != CompleteUrl(base, runId)
    ensures ResultUrl(base, runId, externalId) != CompleteUrl(base, runId)
  {
  }

  /** Within one run, different test-case ids give different result paths. */
  lemma ResultUrlInjective(base: string, runId: string, e1: string, e2: string)
    requires ResultUrl(base, runId, e1) == ResultUrl(base, runId, e2)
    ensures e1 == e2
  {
    var prefix := base + RunsPath + "/" + runId + "/test-case/";
    var u1, u2 := ResultUrl(base, runId, e1), ResultUrl(base, runId, e2);
    assert u1 == prefix + e1 + "/result";
    assert u2 == prefix + e2 + "/result";
    assert |e1| == |e2|;
    assert e1 == u1[|prefix|..|prefix| + |e1|];
    assert e2 == u2[|prefix|..|prefix| + |e2|];
  }

  /** Different run ids give different completion paths. */
  lemma CompleteUrlInjective(base: string, r1: string, r2: string)
    requires CompleteUrl(base, r1) == CompleteUrl(base, r2)
    ensures r1 == r2
  {
    var prefix := base + RunsPath + "/";
    var u1, u2 := CompleteUrl(base, r1), CompleteUrl(base, r2);
    assert u1 == prefix + r1 + "/complete";
    assert u2 == prefix + r2 + "/complete";
    assert |r1| == |r2|;
    assert r1 == u1[|prefix|..|prefix| + |r1|];
    assert r2 == u2[|prefix|..|prefix| + |r2|];
  }

  /** Counting is additive over concatenation. */
  lemma {:induction false} CountAppend(a: seq<Request>, b: seq<Request>, k: Kind)
    ensures Count(a + b, k) == Count(a, k) + Count(b, k)
    decreases |b|
  {
    if b != [] {
      var b' := b[..|b| - 1];
      assert (a + b)[..|a + b| - 1] == a + b';
      CountAppend(a, b', k);
    } else {
      assert a + b == a;
    }
  }
}
