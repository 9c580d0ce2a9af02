/**
 * Error-message extraction (frontend/src/app/utils/errorUtils.ts). An error is a parsed
 * JavaScript value; `null` and `undefined` are both `JNull`.
 */
module ErrorUtils {
  import opened Wrappers
  import opened Json
  import Strs

  const DEFAULT_ERROR_MESSAGE: string := "An unexpected error occurred"

  /** `value?.key`: the member of an object, absent for anything else. */
  function Member(value: Json, key: string): Option<Json>
  {
    Get(value, key)
  }

  predicate TruthyMemberOf(value: Option<Json>, key: string)
  {
    value.Some? && Member(value.value, key).Some? && JsTruthy(Member(value.value, key).value)
  }

  /**
   * `extractErrorMessage`: the first truthy of `data.detail`, `data.message` and `message` of an
   * object, a string error itself, and the default otherwise. The member is returned as it is,
   * whatever its type.
   */
  function ExtractErrorMessage(error: Json, defaultMessage: string): (r: Json)
    ensures !JsTruthy(error) ==> r == JStr(defaultMessage)
    ensures error.JStr? && error.s != "" ==> r == error
    ensures !error.JObj? && !error.JArr? && !error.JStr? ==> r == JStr(defaultMessage)
    ensures (error.JObj? || error.JArr?) && TruthyMemberOf(Member(error, "data"), "detail") ==>
              r == Member(Member(error, "data").value, "detail").value
    ensures ((error.JObj? || error.JArr?) && !TruthyMemberOf(Member(error, "data"), "detail")
             && TruthyMemberOf(Member(error, "data"), "message")) ==>
              r == Member(Member(error, "data").value, "message").value
    ensures ((error.JObj? || error.JArr?) && !TruthyMemberOf(Member(error, "data"), "detail")
             && !TruthyMemberOf(Member(error, "data"), "message") && TruthyMemberOf(Some(error), "message")) ==>
              r == Member(error, "message").value
    ensures ((error.JObj? || error.JArr?) && !TruthyMemberOf(Member(error, "data"), "detail")
             && !TruthyMemberOf(Member(error, "data"), "message") && !TruthyMemberOf(Some(error), "message")) ==>
              r == JStr(defaultMessage)
    ensures r != JStr(defaultMessage) ==> JsTruthy(r)
  {
    if !JsTruthy(error) then JStr(defaultMessage)
    else if error.JObj? || error.JArr? then
      var data := Member(error, "data");
      if TruthyMemberOf(data, "detail") then Member(data.value, "detail").value
      else if TruthyMemberOf(data, "message") then Member(data.value, "message").value
      else if TruthyMemberOf(Some(error), "message") then Member(error, "message").value
      else JStr(defaultMessage)
    else if error.JStr? then error
    else JStr(defaultMessage)
  }

  /** Empty strings are skipped on the way down the chain. */
  lemma EmptyDetailIsSkipped(message: string, defaultMessage: string)
    requires message != ""
    ensures ExtractErrorMessage(JObj(map["data" := JObj(map["detail" := JStr(""), "message" := JStr(message)])]), defaultMessage)
            == JStr(message)
  {
    var data := JObj(map["detail" := JStr(""), "message" := JStr(message)]);
    assert !TruthyMemberOf(Some(data), "detail");
  }

  /** `hasErrorStatus`: false for a falsy or non-object error, otherwise whether `status` equals the code. */
  function HasErrorStatus(error: Json, status: int): (r: bool)
    ensures r <==> JsTruthy(error) && (error.JObj? || error.JArr?) && Member(error, "status") == Some(JInt(status))
  {
    if !JsTruthy(error) || !(error.JObj? || error.JArr?) then false
    else Member(error, "status") == Some(JInt(status))
  }

  /**
   * `errorMessageContains`: a case-insensitive substring test on the extracted message. `None`
   * when the message is not a string, where `toLowerCase` throws.
   */
  function ErrorMessageContains(error: Json, phrase: string): (r: Option<bool>)
    ensures r.Some? <==> ExtractErrorMessage(error, "").JStr?
    ensures r.Some? ==> (r.value <==> Strs.Contains(Strs.Lower(ExtractErrorMessage(error, "").s), Strs.Lower(phrase)))
  {
    var message := ExtractErrorMessage(error, "");
    if message.JStr? then Some(Strs.Contains(Strs.Lower(message.s), Strs.Lower(phrase))) else None
  }

  /** Any error contains the empty phrase when its message is a string. */
  lemma ContainsEmptyPhrase(error: Json)
    requires ExtractErrorMessage(error, "").JStr?
    ensures ErrorMessageContains(error, "") == Some(true)
  {
    assert Strs.OccursAt(Strs.Lower(ExtractErrorMessage(error, "").s), "", 0);
  }
}
