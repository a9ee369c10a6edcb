/**
 * The new-request form's view model: the field validator, the guard of
 * the date parser, and the loading flag around the store's submit.
 * date-fns parsing is foreign and enters as a function parameter.
 */
module NewRequest {
  import opened Wrappers
  import opened Text
  import opened Api
  import opened Stores

  /** A calendar day as the date picker holds it. */
  datatype CalendarDate = CalendarDate(year: int, month: int, day: int)

  const DateKey := "requestDate"
  const HoursKey := "hours"
  const ReasonKey := "reason"

  /**
   * `validateForm(requestDate, hours, reason)`: the errors dictionary is
   * filled one check at a time; the form is valid when it stays empty.
   */
  method ValidateForm(requestDate: string, hours: int, reason: string)
    returns (valid: bool, errors: map<string, string>)
    ensures DateKey in errors <==> requestDate == ""
    ensures DateKey in errors ==> errors[DateKey] == "Please select a date"
    ensures HoursKey in errors <==> hours < 1
    ensures HoursKey in errors ==> errors[HoursKey] == "Hours must be at least 1"
    ensures ReasonKey in errors <==> IsBlank(reason)
    ensures ReasonKey in errors ==> errors[ReasonKey] == "Reason is required"
    ensures errors.Keys <= {DateKey, HoursKey, ReasonKey}
    ensures valid <==> errors == map[]
    ensures valid <==> requestDate != "" && hours >= 1 && !IsBlank(reason)
  {
    errors := map[];
    if requestDate == "" {
      errors := errors[DateKey := "Please select a date"];
    }
    if hours < 1 {
      errors := errors[HoursKey := "Hours must be at least 1"];
    }
    TrimEmptyIffBlank(reason);
    if Trim(reason) == "" {
      errors := errors[ReasonKey := "Reason is required"];
    }
    valid := |errors| == 0;
    if !valid {
      assert errors.Keys != {};
    }
  }

  /** `parseDateString(s)`: nothing for the empty string, otherwise what the parser accepts. */
  function ParseDateString(s: string, parse: string -> Option<CalendarDate>): Option<CalendarDate> {
    if s == "" then None else parse(s)
  }

  /**
   * The picker shows no date exactly when the field is empty or the parser
   * rejects it; a field the picker shows as a date is never empty, so
   * `ValidateForm` raises no 'Please select a date' for it.
   */
  lemma ShownDatePassesDateCheck(s: string, parse: string -> Option<CalendarDate>)
    ensures ParseDateString(s, parse).None? <==> s == "" || parse(s).None?
    ensures ParseDateString(s, parse).Some? ==> s != "" && ParseDateString(s, parse) == parse(s)
  {
  }

  class NewRequestViewModel {
    var loading: bool
    const pto: PTOStore

    constructor(pto: PTOStore)
      ensures !loading && this.pto == pto
    {
      loading := false;
      this.pto := pto;
    }

    /**
     * `submitPtoRequest(...)`: the store's submit between raising and
     * lowering the flag; the store's outcome, rethrow included, passes
     * through.
     */
    method SubmitPtoRequest(auth: AuthStore, post: Reply<()>, balanceReply: Reply<ClientBalance>,
                            requestsReply: Reply<seq<ClientRequest>>) returns (r: SubmitResult)
      requires auth.pto == pto
      modifies this, pto, auth
      ensures !loading
      ensures Step(Snapshot(auth), r) == SubmitStep(old(Snapshot(auth)), post, balanceReply, requestsReply)
    {
      loading := true;
      r := pto.SubmitRequest(auth, post, balanceReply, requestsReply);
      loading := false;
    }
  }
}
