/** What a reporting session guarantees, stated over `Session` and proved
    for all inputs: which requests are sent, how many of each kind, in which
    order, and what stops a session early. */
module SessionProperties {
  import opened Runtime
  import opened ResultsFile
  import opened TestinyApi
  import opened Reporting

  /** A record with a name found in the static table: one result must be
      reported for it. */
  predicate Mapped(record: Record)
  {
    record.Entry? && record.name.Str? && record.name.text in ExternalIdMap
  }

  /** The result request reported for a mapped record. */
  function ResultFor(headers: map<string, string>, runId: string, record: Record): Request
    requires Mapped(record)
  {
    ResultRequest(BaseUrl, headers, runId, ExternalIdMap[record.name.text],
                  StatusFor(record.outcome), CommentFor(record.outcome))
  }

  /** The records the loop gets through: all of them, or those before the
      first one that raises. */
  function Reported(records: seq<Record>): seq<Record>
  {
    match FirstCrash(records)
    case Some(k) => records[..k]
    case None => records
  }

  /** The requests of a session whose run was created: the creation, the
      results for the records walked, and the completion unless a record
      raised. */
  lemma SessionShape(token: Option<string>, doc: Document, timestamp: string, runId: string, records: seq<Record>)
    requires Truthy(token) && TestsOf(doc) == Success(records)
    ensures Session(token, Loaded(doc), timestamp, true, runId).requests
              == [CreateRequest(BaseUrl, Headers(token.value), 2, RunTitle(timestamp))]
                 + Submissions(Headers(token.value), runId, Reported(records))
                 + if FirstCrash(records).None? then [CompleteRequest(BaseUrl, Headers(token.value), runId)] else []
  {
  }

  /** The positions of the mapped records, in increasing order: an
      independent reference for which records get reported. */
  function MappedPositions(records: seq<Record>): (ix: seq<nat>)
    ensures forall k :: 0 <= k < |ix| ==> ix[k] < |records| && Mapped(records[ix[k]])
    ensures forall k, l :: 0 <= k < l < |ix| ==> ix[k] < ix[l]
    ensures forall j :: 0 <= j < |records| && Mapped(records[j]) ==> j in ix
  {
    if records == [] then []
    else
      var n := |records| - 1;
      MappedPositions(records[..n]) + if Mapped(records[n]) then [n] else []
  }

  /** One record's fate: it raises exactly when it is not a JSON object or
      its name is a list or an object; otherwise it is reported exactly when
      it is mapped, with the table's id, the mapped status and the comment. */
  lemma ClassifyCases(record: Record)
    ensures Classify(record).Crash? <==> record.NonObject? || record.name.Compound?
    ensures Classify(record).Submit? <==> Mapped(record)
    ensures Mapped(record) ==>
              Classify(record) == Submit(ExternalIdMap[record.name.text],
                                         StatusFor(record.outcome), CommentFor(record.outcome))
  {
  }

  /** The result requests of a session are exactly one per mapped record,
      in record order, each addressed to the run and carrying the record's
      external id, status and comment. */
  lemma {:induction false} SubmissionsFollowRecords(headers: map<string, string>, runId: string, records: seq<Record>)
    ensures |Submissions(headers, runId, records)| == |MappedPositions(records)|
    ensures forall k :: 0 <= k < |MappedPositions(records)| ==>
              Submissions(headers, runId, records)[k] == ResultFor(headers, runId, records[MappedPositions(records)[k]])
  {
    if records != [] {
      var n := |records| - 1;
      SubmissionsFollowRecords(headers, runId, records[..n]);
      ClassifyCases(records[n]);
      var ix, ix' := MappedPositions(records), MappedPositions(records[..n]);
      forall k | 0 <= k < |ix'|
        ensures records[..n][ix'[k]] == records[ix[k]]
      {
      }
    }
  }

  /** No request sent while walking the records is a creation or a
      completion, and there is one result request per mapped record. */
  lemma {:induction false} SubmissionsCount(headers: map<string, string>, runId: string, records: seq<Record>)
    ensures Count(Submissions(headers, runId, records), ResultKind) == |MappedPositions(records)|
    ensures Count(Submissions(headers, runId, records), CreateKind) == 0
    ensures Count(Submissions(headers, runId, records), CompleteKind) == 0
  {
    if records != [] {
      var n := |records| - 1;
      SubmissionsCount(headers, runId, records[..n]);
      ClassifyCases(records[n]);
      var last := Classify(records[n]);
      var tail := if last.Submit? then [ResultRequest(BaseUrl, headers, runId, last.externalId, last.status, last.comment)]
                  else [];
      forall k: Kind
        ensures Count(Submissions(headers, runId, records), k) == Count(Submissions(headers, runId, records[..n]), k) + Count(tail, k)
      {
        CountAppend(Submissions(headers, runId, records[..n]), tail, k);
      }
      if last.Submit? {
        assert tail[..0] == [];
      }
    }
  }

  /** Every request of a session carries the bearer token it started with. */
  lemma {:induction false} SubmissionsCarryHeaders(headers: map<string, string>, runId: string, records: seq<Record>)
    ensures forall i :: 0 <= i < |Submissions(headers, runId, records)| ==>
              Submissions(headers, runId, records)[i].headers == headers
  {
    if records != [] {
      SubmissionsCarryHeaders(headers, runId, records[..|records| - 1]);
    }
  }

  /** A missing or empty `TESTINY_TOKEN` raises `ValueError` before the
      results file is read and before any request: the ending does not even
      depend on the results file. */
  lemma MissingTokenRaisesFirst(token: Option<string>, load: LoadResult, timestamp: string,
                                createAccepted: bool, runId: string)
    requires !Truthy(token)
    ensures Session(token, load, timestamp, createAccepted, runId)
              == SessionResult(Raised(ValueError(TokenMessage)), [])
  {
  }

  /** `project_id` is the literal 2, so `main` never raises the
      missing-project error. */
  lemma ProjectIdCheckNeverFires(token: Option<string>, load: LoadResult, timestamp: string,
                                 createAccepted: bool, runId: string)
    ensures Session(token, load, timestamp, createAccepted, runId).ending != Raised(ValueError(ProjectIdMessage))
  {
  }

  /** A results file that is missing or not JSON ends the session quietly,
      and any other failure to read it raises; either way nothing is sent. */
  lemma UnreadableResultsSendNothing(token: Option<string>, load: LoadResult, timestamp: string,
                                     createAccepted: bool, runId: string)
    requires Truthy(token) && !load.Loaded?
    ensures Session(token, load, timestamp, createAccepted, runId).requests == []
    ensures Session(token, load, timestamp, createAccepted, runId).ending
              == match load
                 case OpenFailed => Raised(OSError)
                 case DecodeFailed => Raised(DecodeError)
                 case _ => Returned
  {
  }

  /** A rejected run creation ends the session: the creation is the only
      request, with no result and no completion. */
  lemma CreateFailureAborts(token: Option<string>, doc: Document, timestamp: string, runId: string)
    requires Truthy(token)
    ensures var s := Session(token, Loaded(doc), timestamp, false, runId);
            && s.ending == Returned
            && s.requests == [CreateRequest(BaseUrl, Headers(token.value), 2, RunTitle(timestamp))]
            && Count(s.requests, ResultKind) == 0
            && Count(s.requests, CompleteKind) == 0
  {
  }

  /** The first request of every session that sends anything is the run
      creation, in project 2 with status IN_PROGRESS, and no other request
      creates a run. */
  lemma {:induction false} CreateComesFirst(token: Option<string>, load: LoadResult, timestamp: string,
                                            createAccepted: bool, runId: string)
    ensures var s := Session(token, load, timestamp, createAccepted, runId);
            && (s.requests != [] <==> Truthy(token) && load.Loaded?)
            && (s.requests != [] ==>
                  s.requests[0] == CreateRequest(BaseUrl, Headers(token.value), 2, RunTitle(timestamp))
                  && s.requests[0].payload.projectId == 2
                  && s.requests[0].payload.status == InProgress)
            && Count(s.requests, CreateKind) == (if s.requests != [] then 1 else 0)
  {
    var s := Session(token, load, timestamp, createAccepted, runId);
    if Truthy(token) && load.Loaded? {
      var h := Headers(token.value);
      var create := CreateRequest(BaseUrl, h, 2, RunTitle(timestamp));
      assert [create][..0] == [];
      assert Count([create], CreateKind) == 1;
      if createAccepted && TestsOf(load.document).Success? {
        var records := TestsOf(load.document).value;
        var done := Reported(records);
        SessionShape(token, load.document, timestamp, runId, records);
        SubmissionsCount(h, runId, done);
        CountAppend([create], Submissions(h, runId, done), CreateKind);
        if FirstCrash(records).None? {
          var complete := CompleteRequest(BaseUrl, h, runId);
          assert [complete][..0] == [];
          CountAppend([create] + Submissions(h, runId, done), [complete], CreateKind);
        }
      }
    }
  }

  /** The run is completed exactly when it was created and the session
      returned normally; it is then completed once, by the last request,
      with the id the service assigned; otherwise it is never completed. */
  lemma {:induction false} CompletedExactlyOnce(token: Option<string>, load: LoadResult, timestamp: string,
                                                createAccepted: bool, runId: string)
    ensures var s := Session(token, load, timestamp, createAccepted, runId);
            && Count(s.requests, CompleteKind) <= 1
            && (Count(s.requests, CompleteKind) == 1 <==>
                  Truthy(token) && load.Loaded? && createAccepted && s.ending == Returned)
            && (Count(s.requests, CompleteKind) == 1 ==>
                  s.requests[|s.requests| - 1] == CompleteRequest(BaseUrl, Headers(token.value), runId))
  {
    var s := Session(token, load, timestamp, createAccepted, runId);
    if Truthy(token) && load.Loaded? {
      var h := Headers(token.value);
      var create := CreateRequest(BaseUrl, h, 2, RunTitle(timestamp));
      assert [create][..0] == [];
      assert Count([create], CompleteKind) == 0;
      if createAccepted && TestsOf(load.document).Success? {
        var records := TestsOf(load.document).value;
        var done := Reported(records);
        SessionShape(token, load.document, timestamp, runId, records);
        SubmissionsCount(h, runId, done);
        CountAppend([create], Submissions(h, runId, done), CompleteKind);
        if FirstCrash(records).None? {
          var complete := CompleteRequest(BaseUrl, h, runId);
          assert [complete][..0] == [];
          CountAppend([create] + Submissions(h, runId, done), [complete], CompleteKind);
        }
      }
    }
  }

  /** After a successful creation, a session that does not raise sends the
      creation, then one result per mapped record in record order, then the
      completion; one that raises on a record sends results only for the
      mapped records before it. */
  lemma SubmittedInRecordOrder(token: Option<string>, doc: Document, timestamp: string,
                               runId: string, records: seq<Record>)
    requires Truthy(token) && TestsOf(doc) == Success(records)
    ensures var s := Session(token, Loaded(doc), timestamp, true, runId);
            var ix := MappedPositions(Reported(records));
            && |s.requests| == 1 + |ix| + (if FirstCrash(records).None? then 1 else 0)
            && (forall k :: 0 <= k < |ix| ==>
                  s.requests[1 + k] == ResultFor(Headers(token.value), runId, Reported(records)[ix[k]]))
            && Count(s.requests, ResultKind) == |ix|
  {
    var h := Headers(token.value);
    var done := Reported(records);
    var tail := if FirstCrash(records).None? then [CompleteRequest(BaseUrl, h, runId)] else [];
    SessionShape(token, doc, timestamp, runId, records);
    SubmissionsFollowRecords(h, runId, done);
    SubmissionsCount(h, runId, done);
    assert tail != [] ==> tail[..0] == [];
    ResultsBetween(CreateRequest(BaseUrl, h, 2, RunTitle(timestamp)), Submissions(h, runId, done), tail);
  }

  /** Framing a run's results between its creation and a tail holding no
      result keeps their count and shifts them by one position. */
  lemma ResultsBetween(create: Request, subs: seq<Request>, tail: seq<Request>)
    requires KindOf(create) == CreateKind && Count(tail, ResultKind) == 0
    ensures Count([create] + subs + tail, ResultKind) == Count(subs, ResultKind)
    ensures forall k :: 0 <= k < |subs| ==> ([create] + subs + tail)[1 + k] == subs[k]
  {
    assert [create][..0] == [];
    CountAppend([create], subs, ResultKind);
    CountAppend([create] + subs, tail, ResultKind);
  }

  /** With a results file of the expected shape and an accepted creation,
      the session returns normally and completes the run. A file without a
      `tests` key gives a creation and a completion and nothing between. */
  lemma WellFormedResultsComplete(token: Option<string>, doc: Document, timestamp: string, runId: string)
    requires Truthy(token) && WellFormed(doc)
    ensures var s := Session(token, Loaded(doc), timestamp, true, runId);
            && s.ending == Returned
            && s.requests[|s.requests| - 1] == CompleteRequest(BaseUrl, Headers(token.value), runId)
            && (doc.tests.Missing? ==>
                  s.requests == [CreateRequest(BaseUrl, Headers(token.value), 2, RunTitle(timestamp)),
                                 CompleteRequest(BaseUrl, Headers(token.value), runId)])
  {
  }

  /** Every request a session sends carries the headers built from its
      token: the credential does not change during a session. */
  lemma {:induction false} RequestsCarryToken(token: Option<string>, load: LoadResult, timestamp: string,
                                              createAccepted: bool, runId: string)
    requires Truthy(token)
    ensures var s := Session(token, load, timestamp, createAccepted, runId);
            forall i :: 0 <= i < |s.requests| ==> s.requests[i].headers == Headers(token.value)
  {
    var h := Headers(token.value);
    if load.Loaded? && createAccepted && TestsOf(load.document).Success? {
      var records := TestsOf(load.document).value;
      var done := if FirstCrash(records).Some? then records[..FirstCrash(records).value] else records;
      SubmissionsCarryHeaders(h, runId, done);
    }
  }
}
