/**
 * The password reset form (src/app/reset-password/page.tsx): it checks
 * that the two passwords agree and are long enough, then asks the auth
 * service to set the new password and reports the outcome.
 */
module ResetPasswordPage {
  import opened Wrappers

  /** The shortest password the form accepts. */
  const MinLength := 6

  /** The two checks, in order: None when the update may be requested. */
  function PasswordProblem(password: string, confirmPassword: string): (problem: Option<string>)
    ensures password != confirmPassword ==> problem == Some("Passwords do not match")
    ensures password == confirmPassword && |password| < MinLength ==>
      problem == Some("Password must be at least 6 characters")
    ensures problem.None? <==> password == confirmPassword && |password| >= MinLength
  {
    if password != confirmPassword then Some("Passwords do not match")
    else if |password| < MinLength then Some("Password must be at least 6 characters")
    else None
  }

  /** The page's state. */
  class ResetForm {
    var password: string
    var confirmPassword: string
    var loading: bool
    var success: bool
    var error: Option<string>
    /** The passwords sent to the auth service, oldest first. */
    var requested: seq<string>

    /** Only passwords that passed both checks are ever sent. */
    predicate Valid()
      reads this
    {
      forall i :: 0 <= i < |requested| ==> |requested[i]| >= MinLength
    }

    constructor ()
      ensures Valid()
      ensures password == "" && confirmPassword == "" && !loading && !success && error == None && requested == []
    {
      password, confirmPassword := "", "";
      loading, success, error := false, false, None;
      requested := [];
    }

    /** The two inputs' change handlers. */
    method Edit(newPassword: string, newConfirm: string)
      requires Valid()
      modifies this
      ensures Valid()
      ensures password == newPassword && confirmPassword == newConfirm
      ensures loading == old(loading) && success == old(success) && error == old(error) && requested == old(requested)
    {
      password, confirmPassword := newPassword, newConfirm;
    }

    /**
     * The checks of `handleUpdatePassword`: a failed check shows its error
     * and leaves loading and success as they were; passing both clears the
     * error, turns loading on and sends the password.
     */
    method StartUpdate() returns (sent: bool)
      requires Valid()
      modifies this
      ensures Valid()
      ensures sent <==> PasswordProblem(password, confirmPassword).None?
      ensures !sent ==> error == PasswordProblem(password, confirmPassword)
      ensures !sent ==> loading == old(loading) && success == old(success) && requested == old(requested)
      ensures sent ==> loading && error == None && success == old(success) && requested == old(requested) + [password]
      ensures password == old(password) && confirmPassword == old(confirmPassword)
    {
      if password != confirmPassword {
        error := Some("Passwords do not match");
        return false;
      }
      if |password| < MinLength {
        error := Some("Password must be at least 6 characters");
        return false;
      }
      loading, error := true, None;
      requested := requested + [password];
      sent := true;
    }

    /** The end of `handleUpdatePassword` once the auth service answered with its error, if any. */
    method FinishUpdate(updateError: Option<string>)
      requires Valid()
      modifies this
      ensures Valid()
      ensures updateError.None? ==> success && error == old(error)
      ensures updateError.Some? ==> success == old(success) && error == updateError
      ensures !loading && requested == old(requested)
      ensures password == old(password) && confirmPassword == old(confirmPassword)
    {
      if updateError.None? {
        success := true;
      } else {
        error := updateError;
      }
      loading := false;
    }

    /** `handleUpdatePassword` from start to end. */
    method HandleUpdatePassword(updateError: Option<string>)
      requires Valid()
      modifies this
      ensures Valid()
      ensures PasswordProblem(old(password), old(confirmPassword)).Some? ==>
        && error == PasswordProblem(old(password), old(confirmPassword))
        && loading == old(loading) && success == old(success) && requested == old(requested)
      ensures PasswordProblem(old(password), old(confirmPassword)).None? ==>
        && requested == old(requested) + [old(password)] && !loading
        && (success <==> updateError.None? || old(success))
        && error == updateError
      ensures password == old(password) && confirmPassword == old(confirmPassword)
    {
      var sent := StartUpdate();
      if sent {
        FinishUpdate(updateError);
      }
    }
  }
}
