/**
 * The decoded XML envelope of a CCB reply, restricted to the parts the
 * form-responses pipeline reads: the form_responses section (a count
 * attribute and the list of form_response records) and, in the envelope of
 * lib/ccb, the errors section. Go's nilable pointers become Option fields:
 * an element absent from the XML is None.
 */
module Envelope {
  import opened Wrappers

  /** <form id="..."/> */
  datatype FormRef = FormRef(id: string)

  /** <individual id="...">name</individual> */
  datatype IndividualRef = IndividualRef(name: string, id: string)

  /** <profile_info name="...">text</profile_info> */
  datatype ProfileInfo = ProfileInfo(name: string, text: string)

  /** <profile_fields>, the list of its profile_info children. */
  datatype ProfileFields = ProfileFields(profileInfo: seq<ProfileInfo>)

  /** <answers>: its title children and its choice children, two separate lists. */
  datatype Answers = Answers(title: seq<string>, choice: seq<string>)

  /** One <form_response> record. */
  datatype RawFormResponse = RawFormResponse(
    id: string,
    form: Option<FormRef>,
    individual: Option<IndividualRef>,
    created: string,
    modified: string,
    profileFields: Option<ProfileFields>,
    answers: Option<Answers>,
    paymentInfo: string)

  /** <form_responses count="...">: the count attribute is independent of the list. */
  datatype FormResponsesSection = FormResponsesSection(count: int, formResponse: seq<RawFormResponse>)

  /** <error number="..." type="...">message</error> */
  datatype CcbError = CcbError(number: string, errorType: string, message: string)

  /** <errors>, the list of its error children. */
  datatype ErrorsSection = ErrorsSection(error: seq<CcbError>)

  /** The ccbResponse envelope of lib/ccb (its Response element). */
  datatype CcbResponse = CcbResponse(formResponses: Option<FormResponsesSection>, errors: Option<ErrorsSection>)

  /** The CCBResponse envelope of the older handler: it has no errors section. */
  datatype MainCcbResponse = MainCcbResponse(formResponses: Option<FormResponsesSection>)

  /** An HTTP body, carrying what the XML decoder makes of it. */
  datatype Body = Xml(envelope: CcbResponse) | Malformed(reason: string)
}
