/** The sign-up page: the two password checks of `handleSubmit`, in order,
    the error it shows, and the sign-up attempt that follows them. */
module Signup {
  import opened Types
  import AuthStore

  const MismatchMessage := "Passwords do not match"
  const TooShortMessage := "Password must be at least 6 characters"
  const MinPasswordLength := 6
  const OnboardingRoute := "/onboarding"

  /** The checks of `handleSubmit`: a mismatch first, then the length. */
  function ValidationError(password: string, confirm: string): (e: Option<string>)
    ensures e == Some(MismatchMessage) <==> password != confirm
    ensures e == Some(TooShortMessage) <==> password == confirm && |password| < MinPasswordLength
    ensures e.None? <==> password == confirm && |password| >= MinPasswordLength
  {
    if password != confirm then Some(MismatchMessage)
    else if |password| < MinPasswordLength then Some(TooShortMessage)
    else None
  }

  /** `validationError || error`: the page's own message wins; the empty
      string means there is none. */
  function DisplayError(validationError: string, storeError: Option<string>): (r: Option<string>)
    ensures validationError != "" ==> r == Some(validationError)
    ensures validationError == "" ==> r == storeError
  {
    if validationError != "" then Some(validationError) else storeError
  }

  /** `handleSubmit`. Both errors are cleared first; a failed check is shown
      and nothing else happens; otherwise the store signs up (the provider's
      answer is `account`, the preferences write is `write`) and the page
      moves to onboarding only when both succeeded, the store's message
      being shown otherwise. Returns the page's validation message and where
      it navigated. */
  method HandleSubmit(auth: AuthStore.Store, password: string, confirm: string,
                      account: AuthStore.Call<AppUser>, write: AuthStore.Call<()>)
    returns (validationError: string, navigateTo: Option<string>)
    modifies auth
    ensures validationError == ValidationError(password, confirm).GetOr("")
    ensures navigateTo.Some? ==> navigateTo.value == OnboardingRoute
    ensures ValidationError(password, confirm).Some? ==>
              navigateTo.None? && auth.error == None
              && auth.user == old(auth.user) && auth.preferences == old(auth.preferences)
              && auth.isLoading == old(auth.isLoading)
              && DisplayError(validationError, auth.error) == ValidationError(password, confirm)
    ensures ValidationError(password, confirm).None? ==>
              (navigateTo.Some? <==> account.Returned? && write.Returned?)
              && !auth.isLoading
    ensures ValidationError(password, confirm).None? && account.Returned? && write.Returned? ==>
              auth.user == Some(account.value) && DisplayError(validationError, auth.error).None?
    ensures ValidationError(password, confirm).None? && account.Threw? ==>
              auth.user == old(auth.user)
              && DisplayError(validationError, auth.error)
                 == Some(AuthStore.AuthErrorMessage(AuthStore.ErrorKey(account.err)))
    ensures ValidationError(password, confirm).None? && account.Returned? && write.Threw? ==>
              auth.user == old(auth.user)
              && DisplayError(validationError, auth.error)
                 == Some(AuthStore.AuthErrorMessage(AuthStore.ErrorKey(write.err)))
  {
    auth.ClearError();
    validationError := "";
    navigateTo := None;
    match ValidationError(password, confirm)
    case Some(message) =>
      validationError := message;
    case None =>
      var thrown := auth.SignUp(account, write);
      if thrown.None? {
        navigateTo := Some(OnboardingRoute);
      }
  }
}
