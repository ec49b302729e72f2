/**
 * GetFormResponses and handleFormsCCBResponse of lib/ccb: build the query,
 * send the request with retry, accept only status 200, then read the
 * decoded envelope: upstream-reported errors first, an empty page next,
 * and otherwise the projection of every record. Each failure is prefixed
 * with the label of the stage it comes from.
 */
module Service {
  import opened Wrappers
  import opened Decimal
  import opened Query
  import opened Envelope
  import opened Projection
  import opened Retry

  /** A Go (value, error) return, or a runtime panic that unwinds the call. */
  datatype Outcome<T> = Value(value: T) | Error(message: string) | Panic(reason: PanicReason)

  datatype GetFormResponsesResponse = GetFormResponsesResponse(responses: seq<FormResponse>)

  const StatusOK := 200

  /** The reference outcome of handleFormsCCBResponse on a response body. */
  function HandleSpec(body: Body): Outcome<seq<FormResponse>> {
    match body
    case Malformed(reason) => Error("unmarshal xml body: " + reason)
    case Xml(env) =>
      if env.errors.Some? && |env.errors.value.error| > 0 then Error("errors returned from CCB response")
      else if env.formResponses.None? || env.formResponses.value.count == 0 then Value([])
      else match ProjectAllSpec(env.formResponses.value.formResponse)
        case Panicked(p) => Panic(p)
        case Done(fs) => Value(fs)
  }

  /** handleFormsCCBResponse: decode, check upstream errors, check for an empty page, project. */
  method HandleFormsCCBResponse(body: Body) returns (r: Outcome<seq<FormResponse>>)
    ensures r == HandleSpec(body)
  {
    if body.Malformed? {
      return Error("unmarshal xml body: " + body.reason);
    }
    var data := body.envelope;
    if data.errors.Some? && |data.errors.value.error| > 0 {
      return Error("errors returned from CCB response");
    }
    if data.formResponses.None? || data.formResponses.value.count == 0 {
      return Value([]);
    }
    var formResponses := ProjectRecords(data.formResponses.value.formResponse);
    if formResponses.Panicked? {
      return Panic(formResponses.reason);
    }
    return Value(formResponses.value);
  }

  /**
   * What handleFormsCCBResponse promises: a non-empty errors list is an
   * error before any record is looked at; an absent form_responses section
   * or a count attribute of 0 is an empty result, whatever the list holds;
   * otherwise the result has one projection per record, in order, and is
   * returned exactly when every record projects.
   */
  lemma HandleProperties(body: Body)
    ensures body.Malformed? ==> HandleSpec(body) == Error("unmarshal xml body: " + body.reason)
    ensures body.Xml? && body.envelope.errors.Some? && |body.envelope.errors.value.error| > 0 ==>
      HandleSpec(body) == Error("errors returned from CCB response")
    ensures body.Xml? && (body.envelope.errors.None? || body.envelope.errors.value.error == []) ==>
      var fr := body.envelope.formResponses;
      && (fr.None? || fr.value.count == 0 ==> HandleSpec(body) == Value([]))
      && (fr.Some? && fr.value.count != 0 ==>
            && (HandleSpec(body).Value? <==>
                  forall i :: 0 <= i < |fr.value.formResponse| ==> ProjectRecordSpec(fr.value.formResponse[i]).Done?)
            && (HandleSpec(body).Value? ==>
                  && |HandleSpec(body).value| == |fr.value.formResponse|
                  && forall i :: 0 <= i < |fr.value.formResponse| ==>
                       HandleSpec(body).value[i] == ProjectRecordSpec(fr.value.formResponse[i]).value))
  {
    if body.Xml? && body.envelope.formResponses.Some? {
      ProjectAllProperties(body.envelope.formResponses.value.formResponse);
    }
  }

  /**
   * The reference outcome of GetFormResponses: createError is the failure,
   * if any, of building the HTTP request; outcomes and maxAttempts drive
   * the retry loop.
   */
  function GetFormResponsesSpec(createError: Option<string>, outcomes: seq<Attempt>, maxAttempts: nat)
    : Outcome<GetFormResponsesResponse>
    requires createError.None? ==> 0 < maxAttempts <= |outcomes|
  {
    if createError.Some? then Error("create request: " + createError.value)
    else match RetrySpec(outcomes, maxAttempts).result
      case Err(e) => Error("do request with retry: " + e)
      case Ok(resp) =>
        if resp.status != StatusOK then Error("unexpected response from CCB: " + Itoa(resp.status))
        else match HandleSpec(resp.body)
          case Error(e) => Error("handle forms in CCB response: " + e)
          case Panic(p) => Panic(p)
          case Value(fs) => Value(GetFormResponsesResponse(fs))
  }

  /** GetFormResponses: the query it sends, the number of attempts made, and its outcome. */
  method GetFormResponses(req: GetFormResponsesRequest, createError: Option<string>,
                          outcomes: seq<Attempt>, maxAttempts: nat)
    returns (q: Values, attempts: nat, r: Outcome<GetFormResponsesResponse>)
    requires createError.None? ==> 0 < maxAttempts <= |outcomes|
    ensures IsFormResponsesQuery(req, q)
    ensures attempts == (if createError.Some? then 0 else RetrySpec(outcomes, maxAttempts).attempts)
    ensures r == GetFormResponsesSpec(createError, outcomes, maxAttempts)
  {
    q := BuildQuery(req);
    attempts := 0;
    if createError.Some? {
      return q, 0, Error("create request: " + createError.value);
    }
    var httpResp, retryCount;
    httpResp, attempts, retryCount := DoRequestWithRetry(Some(Request(q)), outcomes, maxAttempts);
    if httpResp.Err? {
      return q, attempts, Error("do request with retry: " + httpResp.error);
    }
    if httpResp.value.status != StatusOK {
      // The best-effort read of the body only feeds the log.
      return q, attempts, Error("unexpected response from CCB: " + Itoa(httpResp.value.status));
    }
    var formResponses := HandleFormsCCBResponse(httpResp.value.body);
    match formResponses
    case Error(e) =>
      r := Error("handle forms in CCB response: " + e);
    case Panic(p) =>
      r := Panic(p);
    case Value(fs) =>
      r := Value(GetFormResponsesResponse(fs));
  }

  predicate HasPrefix(s: string, prefix: string) {
    |prefix| <= |s| && s[..|prefix|] == prefix
  }

  /**
   * Stage labels: each error of GetFormResponses carries the label of the
   * stage it comes from, followed by that stage's own error: a failure to
   * build the request, a failure of the retry loop, a final status other
   * than exactly 200, or a failure of handleFormsCCBResponse. A panic or a
   * result comes only from a final response with status 200, and is the
   * panic or the projection of that response's body.
   */
  lemma GetFormResponsesStages(createError: Option<string>, outcomes: seq<Attempt>, maxAttempts: nat)
    requires createError.None? ==> 0 < maxAttempts <= |outcomes|
    ensures var r := GetFormResponsesSpec(createError, outcomes, maxAttempts);
      && (r.Error? ==>
            || HasPrefix(r.message, "create request: ")
            || HasPrefix(r.message, "do request with retry: ")
            || HasPrefix(r.message, "unexpected response from CCB: ")
            || HasPrefix(r.message, "handle forms in CCB response: "))
      && (createError.Some? ==> r == Error("create request: " + createError.value))
      && (createError.None? && RetrySpec(outcomes, maxAttempts).result.Err? ==>
            r == Error("do request with retry: " + RetrySpec(outcomes, maxAttempts).result.error))
      && (createError.None? && RetrySpec(outcomes, maxAttempts).result.Ok? ==>
            var resp := RetrySpec(outcomes, maxAttempts).result.value;
            && (resp.status != StatusOK ==> r == Error("unexpected response from CCB: " + Itoa(resp.status)))
            && (resp.status == StatusOK && HandleSpec(resp.body).Error? ==>
                  r == Error("handle forms in CCB response: " + HandleSpec(resp.body).message))
            && (r.Value? ==> resp.status == StatusOK && HandleSpec(resp.body) == Value(r.value.responses))
            && (r.Panic? ==> resp.status == StatusOK && HandleSpec(resp.body) == Panic(r.reason)))
      && (r.Value? || r.Panic? ==> createError.None? && RetrySpec(outcomes, maxAttempts).result.Ok?)
  {
    var r := GetFormResponsesSpec(createError, outcomes, maxAttempts);
    if r.Error? {
      var e: string;
      if createError.Some? {
        e := createError.value;
        assert HasPrefix("create request: " + e, "create request: ");
      } else if RetrySpec(outcomes, maxAttempts).result.Err? {
        e := RetrySpec(outcomes, maxAttempts).result.error;
        assert HasPrefix("do request with retry: " + e, "do request with retry: ");
      } else if RetrySpec(outcomes, maxAttempts).result.value.status != StatusOK {
        e := Itoa(RetrySpec(outcomes, maxAttempts).result.value.status);
        assert HasPrefix("unexpected response from CCB: " + e, "unexpected response from CCB: ");
      } else {
        e := HandleSpec(RetrySpec(outcomes, maxAttempts).result.value.body).message;
        assert HasPrefix("handle forms in CCB response: " + e, "handle forms in CCB response: ");
      }
    }
  }

  /**
   * One page with one record: profile field Email, title Q1 answered Yes,
   * fetched on the first attempt with status 200, projects to a single
   * response with the form's id and the two one-entry maps.
   */
  lemma OneRecordScenario(maxAttempts: nat, outcomes: seq<Attempt>, created: string, modified: string)
    requires 0 < maxAttempts <= |outcomes|
    requires outcomes[0] == Received(Response(200, Xml(CcbResponse(
      Some(FormResponsesSection(1, [RawFormResponse(
        "7", Some(FormRef("85")), None, created, modified,
        Some(ProfileFields([ProfileInfo("Email", "a@b.com")])),
        Some(Answers(["Q1"], ["Yes"])), "")])),
      None))))
    ensures GetFormResponsesSpec(None, outcomes, maxAttempts) == Value(GetFormResponsesResponse(
      [FormResponse("85", map["Email" := "a@b.com"], map["Q1" := "Yes"], created, modified)]))
  {
    assert outcomes[..maxAttempts][0] == outcomes[0];
    var v := RawFormResponse(
      "7", Some(FormRef("85")), None, created, modified,
      Some(ProfileFields([ProfileInfo("Email", "a@b.com")])),
      Some(Answers(["Q1"], ["Yes"])), "");
    assert FirstFinal(outcomes[..maxAttempts]) == 0;
    var pp, ap := [("Email", "a@b.com")], [("Q1", "Yes")];
    assert ProfilePairs([ProfileInfo("Email", "a@b.com")]) == pp;
    assert AnswerPairs(["Q1"], ["Yes"]) == ap;
    assert pp[..0] == [] && ap[..0] == [];
    assert Assoc(pp) == map["Email" := "a@b.com"];
    assert Assoc(ap) == map["Q1" := "Yes"];
    var f := FormResponse("85", map["Email" := "a@b.com"], map["Q1" := "Yes"], created, modified);
    assert ProjectRecordSpec(v) == Done(f);
    var records := [v];
    assert records[..|records| - 1] == [] && records[|records| - 1] == v;
    assert ProjectAllSpec(records[..|records| - 1]) == Done([]);
    assert [] + [f] == [f];
    assert ProjectAllSpec(records) == Done([f]);
  }
}
