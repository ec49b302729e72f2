/**
 * The query of the outbound form_responses call: the request record the
 * caller supplies, the calendar date of ModifiedSince rendered with the
 * Go layout "2006-01-02", url.Values as a map from key to its list of
 * values, and the query built by successive Add calls.
 */
module Query {
  import opened Wrappers
  import opened Decimal

  type Month = m: int | 1 <= m <= 12 witness 1
  type Day = d: int | 1 <= d <= 31 witness 1

  /** The calendar date of a time.Time in its own location; the time of day is never sent. */
  datatype Date = Date(year: int, month: Month, day: Day)

  /** GetFormResponsesRequest: FormID is a plain int, ModifiedSince a nilable time. */
  datatype GetFormResponsesRequest = GetFormResponsesRequest(
    formID: int,
    modifiedSince: Option<Date>,
    page: int,
    pageSize: int)

  /** Time.Format("2006-01-02"): year padded to four digits, month and day to two. */
  function FormatDate(d: Date): string {
    PaddedInt(d.year, 4) + "-" + PaddedInt(d.month, 2) + "-" + PaddedInt(d.day, 2)
  }

  /** Reading a YYYY-MM-DD string back into a date; the inverse of FormatDate. */
  function ParseDate(s: string): Option<Date> {
    if |s| == 10 && s[4] == '-' && s[7] == '-'
       && AllDigits(s[..4]) && AllDigits(s[5..7]) && AllDigits(s[8..])
       && 1 <= DigitsValue(s[5..7]) <= 12 && 1 <= DigitsValue(s[8..]) <= 31
    then Some(Date(DigitsValue(s[..4]), DigitsValue(s[5..7]), DigitsValue(s[8..])))
    else None
  }

  /**
   * A date with a four-digit year renders as exactly YYYY-MM-DD: ten
   * characters, dashes at positions 4 and 7, digits elsewhere, and it
   * reads back as the same date.
   */
  lemma FormatDateRoundTrip(d: Date)
    requires 0 <= d.year <= 9999
    ensures |FormatDate(d)| == 10 && FormatDate(d)[4] == '-' && FormatDate(d)[7] == '-'
    ensures ParseDate(FormatDate(d)) == Some(d)
  {
    var y, m, dd := PaddedInt(d.year, 4), PaddedInt(d.month, 2), PaddedInt(d.day, 2);
    assert Pow10(4) == 10000 && Pow10(2) == 100 by {
      assert Pow10(1) == 10;
      assert Pow10(2) == 100;
      assert Pow10(3) == 1000;
    }
    PaddedIntValue(d.year, 4);
    PaddedIntValue(d.month, 2);
    PaddedIntValue(d.day, 2);
    var s := FormatDate(d);
    assert s == y + "-" + m + "-" + dd;
    assert s[..4] == y && s[5..7] == m && s[8..] == dd;
  }

  /** url.Values: each key maps to the list of its values, in the order added. */
  type Values = map<string, seq<string>>

  /** url.Values.Add appends value to the list of key. */
  function Add(q: Values, key: string, value: string): Values {
    q[key := (if key in q then q[key] else []) + [value]]
  }

  /**
   * The query GetFormResponses sends: srv=form_responses and the decimal
   * page, per_page and form_id, each exactly once; modified_since exactly
   * when a date is given, holding that date as YYYY-MM-DD; no other key.
   */
  ghost predicate IsFormResponsesQuery(req: GetFormResponsesRequest, q: Values) {
    && q.Keys == {"srv", "page", "per_page", "form_id"}
                 + (if req.modifiedSince.Some? then {"modified_since"} else {})
    && q["srv"] == ["form_responses"]
    && q["page"] == [Itoa(req.page)]
    && q["per_page"] == [Itoa(req.pageSize)]
    && q["form_id"] == [Itoa(req.formID)]
    && (req.modifiedSince.Some? ==> q["modified_since"] == [FormatDate(req.modifiedSince.value)])
  }

  /** Builds the query through successive Add calls, as GetFormResponses does. */
  method BuildQuery(req: GetFormResponsesRequest) returns (q: Values)
    ensures IsFormResponsesQuery(req, q)
    ensures "modified_since" in q <==> req.modifiedSince.Some?
    ensures ParseInt(q["page"][0]) == Some(req.page)
    ensures ParseInt(q["per_page"][0]) == Some(req.pageSize)
    ensures ParseInt(q["form_id"][0]) == Some(req.formID)
    ensures req.modifiedSince.Some? && 0 <= req.modifiedSince.value.year <= 9999 ==>
              ParseDate(q["modified_since"][0]) == req.modifiedSince
  {
    q := map[];
    q := Add(q, "srv", "form_responses");
    q := Add(q, "page", Itoa(req.page));
    q := Add(q, "per_page", Itoa(req.pageSize));
    q := Add(q, "form_id", Itoa(req.formID));
    if req.modifiedSince.Some? {
      // Only the year, month and day are rendered.
      q := Add(q, "modified_since", FormatDate(req.modifiedSince.value));
      if 0 <= req.modifiedSince.value.year <= 9999 {
        FormatDateRoundTrip(req.modifiedSince.value);
      }
    }
    ItoaRoundTrip(req.page);
    ItoaRoundTrip(req.pageSize);
    ItoaRoundTrip(req.formID);
  }
}
