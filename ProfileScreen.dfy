/**
 * The password-change part of the profile screen: the inline error flags of the two fields
 * and the click handler, which checks the fields in order before calling the user view-model.
 */
module ProfileScreen {
  import opened Wrappers
  import opened Text
  import opened Resources
  import opened Firebase
  import opened Authentication
  import opened UserProfile

  /** The checks of the change-password click, in their order; None calls the view-model. */
  function PasswordChangeCheck(newPassword: string, confirmPassword: string): (r: Option<StringRes>)
    ensures r == Some(PasswordFieldsEmpty) <==> IsBlank(newPassword) || IsBlank(confirmPassword)
    ensures r == Some(PasswordTooShort) <==>
              !IsBlank(newPassword) && !IsBlank(confirmPassword) && Utf16Length(newPassword) < MinPasswordLength
    ensures r == Some(PasswordsDoNotMatch) <==>
              !IsBlank(newPassword) && !IsBlank(confirmPassword) && Utf16Length(newPassword) >= MinPasswordLength
              && newPassword != confirmPassword
    ensures r.None? <==>
              !IsBlank(newPassword) && Utf16Length(newPassword) >= MinPasswordLength && newPassword == confirmPassword
  {
    if IsBlank(newPassword) || IsBlank(confirmPassword) then Some(PasswordFieldsEmpty)
    else if Utf16Length(newPassword) < MinPasswordLength then Some(PasswordTooShort)
    else if newPassword != confirmPassword then Some(PasswordsDoNotMatch)
    else None
  }

  /** The red outline of the new-password field. */
  predicate NewPasswordFlagged(newPassword: string) {
    |newPassword| != 0 && Utf16Length(newPassword) < MinPasswordLength
  }

  /** The red outline of the confirmation field. */
  predicate ConfirmFlagged(newPassword: string, confirmPassword: string) {
    |confirmPassword| != 0 && newPassword != confirmPassword
  }

  /**
   * A password the screen lets through is long enough for the view-model's own rule and shows
   * no red outline.
   */
  lemma AcceptedPasswordPassesEverywhere(newPassword: string, confirmPassword: string)
    requires PasswordChangeCheck(newPassword, confirmPassword).None?
    ensures Utf16Length(newPassword) >= MinPasswordLength
    ensures !NewPasswordFlagged(newPassword) && !ConfirmFlagged(newPassword, confirmPassword)
  {
  }

  /** A flagged new password is always refused by the click, as too short once both fields are filled. */
  lemma FlaggedPasswordIsRefused(newPassword: string, confirmPassword: string)
    requires NewPasswordFlagged(newPassword)
    ensures PasswordChangeCheck(newPassword, confirmPassword).Some?
    ensures !IsBlank(newPassword) && !IsBlank(confirmPassword) ==>
              PasswordChangeCheck(newPassword, confirmPassword) == Some(PasswordTooShort)
  {
  }

  /**
   * A blank password long enough for the outline (eight spaces, say) raises no red outline
   * when confirmed, yet the click refuses it as empty fields whatever the confirmation.
   */
  lemma BlankPasswordUnflaggedButRefused(newPassword: string, confirmPassword: string)
    requires IsBlank(newPassword) && Utf16Length(newPassword) >= MinPasswordLength
    ensures !NewPasswordFlagged(newPassword) && !ConfirmFlagged(newPassword, newPassword)
    ensures PasswordChangeCheck(newPassword, confirmPassword) == Some(PasswordFieldsEmpty)
  {
  }

  /**
   * The screen checks the length before the match and registration does the opposite: a
   * short password with a different, non-blank confirmation is "too short" here and a
   * mismatch there.
   */
  lemma CheckOrderDiffersFromRegistration(firstname: string, lastname: string, email: string,
                                          password: string, confirmPassword: string,
                                          isEmail: string -> bool)
    requires !IsBlank(firstname) && !IsBlank(lastname) && !IsBlank(email) && isEmail(email)
    requires !IsBlank(password) && !IsBlank(confirmPassword) && password != confirmPassword
    requires Utf16Length(password) < MinPasswordLength
    ensures PasswordChangeCheck(password, confirmPassword) == Some(PasswordTooShort)
    ensures RegistrationError(firstname, lastname, email, password, confirmPassword, isEmail) == Some(ErrorPasswordMismatch)
  {
  }

  /** The remembered state of the password section. */
  class PasswordForm {
    var newPassword: string
    var confirmPassword: string
    var passwordError: Option<StringRes>
    var passwordSuccess: Option<StringRes>
    var isLoading: bool

    constructor ()
      ensures newPassword == "" && confirmPassword == ""
      ensures passwordError == None && passwordSuccess == None && !isLoading
    {
      newPassword := "";
      confirmPassword := "";
      passwordError := None;
      passwordSuccess := None;
      isLoading := false;
    }

    /**
     * The change-password click. The button is enabled only while not loading. `update` is the
     * outcome of the backend's password update; the view-model's callbacks run to completion.
     */
    method ClickChangePassword(profile: UserProfileState, backend: Backend, update: Step)
      requires !isLoading
      modifies this, backend`passwords
      ensures !isLoading
      ensures var check := PasswordChangeCheck(old(newPassword), old(confirmPassword));
              check.Some? ==>
                && passwordError == check && passwordSuccess == None
                && newPassword == old(newPassword) && confirmPassword == old(confirmPassword)
                && backend.passwords == old(backend.passwords)
      ensures PasswordChangeCheck(old(newPassword), old(confirmPassword)).None? ==>
                if backend.currentUser.Some? && update.Ok? then
                  && backend.passwords == old(backend.passwords)[backend.currentUser.value.uid := old(newPassword)]
                  && newPassword == "" && confirmPassword == ""
                  && passwordError == None && passwordSuccess == Some(PasswordChangeSuccess)
                else
                  && backend.passwords == old(backend.passwords)
                  && newPassword == old(newPassword) && confirmPassword == old(confirmPassword)
                  && passwordError == Some(PasswordChangeFailed) && passwordSuccess == None
    {
      passwordError := None;
      passwordSuccess := None;
      var check := PasswordChangeCheck(newPassword, confirmPassword);
      if check.Some? {
        passwordError := check;
        return;
      }
      isLoading := true;
      var completion := profile.ChangePassword(backend, newPassword, update);
      match completion {
        case OnSuccess =>
          isLoading := false;
          newPassword := "";
          confirmPassword := "";
          passwordError := None;
          passwordSuccess := Some(PasswordChangeSuccess);
        case OnFailure(_) =>
          isLoading := false;
          passwordError := Some(PasswordChangeFailed);
          passwordSuccess := None;
      }
    }
  }
}
