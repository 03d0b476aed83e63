/**
 * The signed-in user's profile (UserViewModel): fetching it with a fallback, updating the
 * names, and changing the password.
 */
module UserProfile {
  import opened Wrappers
  import opened Text
  import opened Firebase
  import opened Authentication

  const NoUserMessage: string := "No user logged in"
  const ShortPasswordMessage: string := "Password must be at least 8 characters long"

  /** The profile shown when the document is missing or unreadable: only the auth email, or "". */
  function FallbackUser(email: Option<string>): (u: User)
    ensures u.firstname == "" && u.lastname == ""
    ensures email.Some? ==> u.email == email.value
    ensures email.None? ==> u.email == ""
  {
    User("", "", email.GetOr(""))
  }

  /** The state of `UserViewModel`. */
  class UserProfileState {
    var user: Option<User>

    /** `init { fetchUser() }`, with `read` the outcome of reading the profile document. */
    constructor (backend: Backend, read: Step)
      ensures backend.currentUser.None? ==> user == None
      ensures backend.currentUser.Some? ==>
                var firebaseUser := backend.currentUser.value;
                if read.Ok? && firebaseUser.uid in backend.users then user == Some(backend.users[firebaseUser.uid])
                else user == Some(FallbackUser(firebaseUser.email))
    {
      user := None;
      new;
      FetchUser(backend, read);
    }

    /**
     * `fetchUser`: nothing happens without a signed-in user; otherwise the profile document,
     * or the fallback when the document is missing or the read fails.
     */
    method FetchUser(backend: Backend, read: Step)
      modifies this`user
      ensures backend.currentUser.None? ==> user == old(user)
      ensures backend.currentUser.Some? ==>
                var firebaseUser := backend.currentUser.value;
                if read.Ok? && firebaseUser.uid in backend.users then user == Some(backend.users[firebaseUser.uid])
                else user == Some(FallbackUser(firebaseUser.email))
    {
      match backend.currentUser {
        case None =>
        case Some(firebaseUser) =>
          if read.Err? {
            user := Some(FallbackUser(firebaseUser.email));
          } else if firebaseUser.uid in backend.users {
            user := Some(backend.users[firebaseUser.uid]);
          } else {
            user := Some(FallbackUser(firebaseUser.email));
          }
      }
    }

    /**
     * `updateUserProfile`, with `write` the outcome of writing the document. The email is
     * taken from the auth session, never from the caller.
     */
    method UpdateUserProfile(backend: Backend, firstname: string, lastname: string, write: Step)
      returns (completion: Completion)
      modifies this`user, backend`users
      ensures backend.currentUser.None? ==>
                completion == OnFailure(Failure(NoUserMessage))
                && user == old(user) && backend.users == old(backend.users)
      ensures backend.currentUser.Some? && write.Ok? ==>
                var firebaseUser := backend.currentUser.value;
                var updated := User(firstname, lastname, firebaseUser.email.GetOr(""));
                && backend.users == old(backend.users)[firebaseUser.uid := updated]
                && user == Some(updated)
                && completion == OnSuccess
      ensures backend.currentUser.Some? && write.Err? ==>
                completion == OnFailure(write.e) && user == old(user) && backend.users == old(backend.users)
    {
      match backend.currentUser {
        case None =>
          completion := OnFailure(Failure(NoUserMessage));
        case Some(firebaseUser) =>
          var updatedUser := User(firstname, lastname, firebaseUser.email.GetOr(""));
          if write.Err? {
            completion := OnFailure(write.e);
            return;
          }
          backend.users := backend.users[firebaseUser.uid := updatedUser];
          user := Some(updatedUser);
          completion := OnSuccess;
      }
    }

    /**
     * `changePassword`, with `update` the outcome of the backend's password update. A password
     * shorter than eight characters is refused before the backend is called.
     */
    method ChangePassword(backend: Backend, newPassword: string, update: Step)
      returns (completion: Completion)
      modifies backend`passwords
      ensures backend.currentUser.None? ==>
                completion == OnFailure(Failure(NoUserMessage)) && backend.passwords == old(backend.passwords)
      ensures backend.currentUser.Some? && Utf16Length(newPassword) < MinPasswordLength ==>
                completion == OnFailure(Failure(ShortPasswordMessage)) && backend.passwords == old(backend.passwords)
      ensures backend.currentUser.Some? && Utf16Length(newPassword) >= MinPasswordLength ==>
                if update.Ok? then
                  backend.passwords == old(backend.passwords)[backend.currentUser.value.uid := newPassword]
                  && completion == OnSuccess
                else
                  backend.passwords == old(backend.passwords) && completion == OnFailure(update.e)
    {
      match backend.currentUser {
        case None =>
          completion := OnFailure(Failure(NoUserMessage));
        case Some(firebaseUser) =>
          if Utf16Length(newPassword) < MinPasswordLength {
            completion := OnFailure(Failure(ShortPasswordMessage));
            return;
          }
          if update.Err? {
            completion := OnFailure(update.e);
            return;
          }
          backend.passwords := backend.passwords[firebaseUser.uid := newPassword];
          completion := OnSuccess;
      }
    }
  }
}
