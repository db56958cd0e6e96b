/** The reset-password page (client/src/features/Auth/ResetPassword.jsx): the
    form, the message-clearing effect, and the submit handler with its ordered
    checks. The answer to the POST is a parameter; the redirect timer is a flag. */
module ResetPassword {
  import opened Js

  const MissingToken: string := "Missing reset token. Please use the link provided in your email."
  const TooShort: string := "Password must be at least 8 characters long."
  const Mismatch: string := "The new passwords do not match."
  const ResetDone: string := "Password successfully reset! You will be redirected shortly."
  const ResetFailed: string := "Failed to reset password. The link may have expired or is invalid."

  const MinPasswordLength: int := 8
  /** The delay before navigating to '/', in ms. */
  const RedirectDelayMs: int := 3000

  /** The checks of handleSubmit in order; the first failing one gives its message. */
  function ResetValidation(token: string, password: string, confirmPassword: string): (r: Option<string>)
    ensures r.None? <==> token != "" && |password| >= MinPasswordLength && password == confirmPassword
    ensures token == "" ==> r == Some(MissingToken)
    ensures token != "" && |password| < MinPasswordLength ==> r == Some(TooShort)
    ensures token != "" && |password| >= MinPasswordLength && password != confirmPassword ==> r == Some(Mismatch)
  {
    if token == "" then Some(MissingToken)
    else if |password| < MinPasswordLength then Some(TooShort)
    else if password != confirmPassword then Some(Mismatch)
    else None
  }

  /** The body of the POST: `{ token, newPassword: password }`. */
  function ResetRequestBody(token: string, password: string): (j: Json)
    ensures j.JObj? && j.fields.Keys == {"token", "newPassword"}
    ensures Get(j, "token") == Some(JStr(token)) && Get(j, "newPassword") == Some(JStr(password))
  {
    JObj(map["token" := JStr(token), "newPassword" := JStr(password)])
  }

  class ResetPage {
    /** The `:token` route parameter. */
    const token: string
    var password: string
    var confirmPassword: string
    var loading: bool
    var message: string
    var error: string
    /** Whether the navigation to '/' has been scheduled. */
    var redirectScheduled: bool

    constructor (token: string)
      ensures this.token == token
      ensures password == "" && confirmPassword == "" && !loading && message == "" && error == "" && !redirectScheduled
    {
      this.token := token;
      password, confirmPassword := "", "";
      loading, message, error := false, "", "";
      redirectScheduled := false;
    }

    /** A change of the password field; the effect on [password, confirmPassword]
        clears both messages when the value actually changed. */
    method ChangePassword(value: string)
      modifies this
      ensures password == value && confirmPassword == old(confirmPassword)
      ensures value != old(password) ==> message == "" && error == ""
      ensures value == old(password) ==> message == old(message) && error == old(error)
      ensures loading == old(loading) && redirectScheduled == old(redirectScheduled)
    {
      var changed := value != password;
      password := value;
      if changed {
        error := "";
        message := "";
      }
    }

    method ChangeConfirmPassword(value: string)
      modifies this
      ensures confirmPassword == value && password == old(password)
      ensures value != old(confirmPassword) ==> message == "" && error == ""
      ensures value == old(confirmPassword) ==> message == old(message) && error == old(error)
      ensures loading == old(loading) && redirectScheduled == old(redirectScheduled)
    {
      var changed := value != confirmPassword;
      confirmPassword := value;
      if changed {
        error := "";
        message := "";
      }
    }

    /** handleSubmit. `request` is the body posted, None when a check fails first. */
    method HandleSubmit(answer: Outcome) returns (request: Option<Json>)
      modifies this
      ensures password == old(password) && confirmPassword == old(confirmPassword)
      ensures ResetValidation(token, password, confirmPassword).Some? ==>
        && request == None
        && error == ResetValidation(token, password, confirmPassword).value && message == ""
        && loading == old(loading) && redirectScheduled == old(redirectScheduled)
      ensures ResetValidation(token, password, confirmPassword).None? ==>
        && request == Some(ResetRequestBody(token, password))
        && !loading
        && if answer.Answered? && IsOk(answer.response.status) then
             message == ResetDone && error == "" && redirectScheduled
           else
             error == AxiosErrorText(answer, ResetFailed) && message == "" && redirectScheduled == old(redirectScheduled)
    {
      error := "";
      message := "";
      var invalid := ResetValidation(token, password, confirmPassword);
      if invalid.Some? {
        error := invalid.value;
        return None;
      }
      loading := true;
      request := Some(ResetRequestBody(token, password));
      if answer.Answered? && IsOk(answer.response.status) {
        message := ResetDone;
        redirectScheduled := true;
      } else {
        error := AxiosErrorText(answer, ResetFailed);
      }
      loading := false;
    }
  }
}
