/** The `R.string` message identifiers the view-models and the profile screen assign. */
module Resources {

  datatype StringRes =
    // registration and login
    | ErrorEmptyFields
    | ErrorInvalidEmail
    | ErrorPasswordMismatch
    | ErrorShortPassword
    | ErrorEmailExists
    | SuccessRegistration
    | ErrorEmailAlreadyInUse
    | ErrorRegistrationFailed
    | ErrorEmptyEmailPassword
    | SuccessLogin
    | SuccessLogout
    | ErrorIncorrectPassword
    | ErrorUserNotFound
    | ErrorUserDisabled
    | ErrorInvalidUser
    | ErrorAuthentication
    | ErrorUnknown
    // campsite creation
    | DocumentTooLarge
    // profile screen
    | PasswordFieldsEmpty
    | PasswordTooShort
    | PasswordsDoNotMatch
    | PasswordChangeSuccess
    | PasswordChangeFailed

  /** A user-visible text: a string resource or a raw message (an exception's text). */
  datatype Message = Resource(res: StringRes) | Text(text: string)
}
