/**
 * formResponseHandler of the older API layer: the same record projection
 * as lib/ccb, over an envelope that has no errors section, with a
 * different empty rule: a count attribute of 0 answers 404 "No results
 * found". The JSON body of a success is its FormResponses value.
 */
module Handler {
  import opened Wrappers
  import opened Envelope
  import opened Projection

  /** FormData has the five fields of FormResponse. */
  type FormData = FormResponse

  datatype FormResponses = FormResponses(count: int, responses: seq<FormData>)

  /** What the handler writes to the iris context, or the panic that unwinds it. */
  datatype HandlerOutcome =
    | NotFound(status: int, message: string)
    | Success(formResponses: FormResponses)
    | Panic(reason: PanicReason)

  const StatusNotFound := 404
  const NoResultsMessage := "No results found"

  /** The reference outcome of formResponseHandler. */
  function FormResponseHandlerSpec(resp: MainCcbResponse): HandlerOutcome {
    if resp.formResponses.None? then Panic(NilFormResponses)
    else if resp.formResponses.value.count == 0 then NotFound(StatusNotFound, NoResultsMessage)
    else match ProjectAllSpec(resp.formResponses.value.formResponse)
      case Panicked(p) => Panic(p)
      case Done(fs) => Success(FormResponses(resp.formResponses.value.count, fs))
  }

  /** formResponseHandler: copies the count, then projects the records unless the count is 0. */
  method FormResponseHandler(resp: MainCcbResponse) returns (o: HandlerOutcome)
    ensures o == FormResponseHandlerSpec(resp)
  {
    // FormResponses is dereferenced without a nil check.
    if resp.formResponses.None? {
      return Panic(NilFormResponses);
    }
    var count := resp.formResponses.value.count;
    if count != 0 {
      var responses := ProjectRecords(resp.formResponses.value.formResponse);
      if responses.Panicked? {
        return Panic(responses.reason);
      }
      return Success(FormResponses(count, responses.value));
    } else {
      return NotFound(StatusNotFound, NoResultsMessage);
    }
  }

  /**
   * What formResponseHandler promises: the form_responses section must be
   * present; a count of 0 answers 404 "No results found" and builds no
   * response; otherwise the output count is the upstream count, and there
   * is one FormData per record, in order, even when the list is empty.
   */
  lemma FormResponseHandlerProperties(resp: MainCcbResponse)
    ensures resp.formResponses.None? ==> FormResponseHandlerSpec(resp) == Panic(NilFormResponses)
    ensures resp.formResponses.Some? && resp.formResponses.value.count == 0 ==>
      FormResponseHandlerSpec(resp) == NotFound(404, "No results found")
    ensures resp.formResponses.Some? && resp.formResponses.value.count != 0 ==>
      var records := resp.formResponses.value.formResponse;
      var o := FormResponseHandlerSpec(resp);
      && (o.Success? <==> forall i :: 0 <= i < |records| ==> ProjectRecordSpec(records[i]).Done?)
      && (o.Success? ==>
            && o.formResponses.count == resp.formResponses.value.count
            && |o.formResponses.responses| == |records|
            && forall i :: 0 <= i < |records| ==>
                 o.formResponses.responses[i] == ProjectRecordSpec(records[i]).value)
      && (o.Panic? ==> exists i :: 0 <= i < |records| && ProjectRecordSpec(records[i]) == Panicked(o.reason))
  {
    if resp.formResponses.Some? {
      ProjectAllProperties(resp.formResponses.value.formResponse);
    }
  }

  /** A page whose count is not 0 but whose list is empty gives zero responses, not 404. */
  lemma NonZeroCountEmptyList(count: int)
    requires count != 0
    ensures FormResponseHandlerSpec(MainCcbResponse(Some(FormResponsesSection(count, [])))) ==
      Success(FormResponses(count, []))
  {
  }
}
