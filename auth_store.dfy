/** The authentication store: the signed-in user, their preferences, the
    loading and initialised flags and the last user-facing error. Calls into
    the identity provider and the document store are parameters holding what
    the call returned or threw. */
module AuthStore {
  import opened Types

  /** What a thrown error carries: the provider's `code` (empty when the
      error has none) and its `message`. */
  datatype ThrownError = ThrownError(code: string, message: string)

  /** The outcome of an awaited call that may throw. */
  datatype Call<T> = Returned(value: T) | Threw(err: ThrownError)

  const NoAccountMessage := "No account found with this email. Please sign up first."
  const WrongPasswordMessage := "Incorrect password. Please try again."
  const InvalidEmailMessage := "Please enter a valid email address."
  const EmailInUseMessage := "This email is already registered. Please sign in instead."
  const WeakPasswordMessage := "Password is too weak. Please use at least 6 characters."
  const TooManyRequestsMessage := "Too many failed attempts. Please try again later."
  const NetworkMessage := "Network error. Please check your connection."
  const GenericAuthMessage := "An error occurred. Please try again."
  const SignOutFallback := "Failed to sign out"
  const UpdatePreferencesFallback := "Failed to update preferences"

  /** The provider codes that have a message of their own. */
  const KnownAuthCodes: set<string> := {
    "auth/invalid-credential", "auth/user-not-found", "auth/wrong-password", "auth/invalid-email",
    "auth/email-already-in-use", "auth/weak-password", "auth/too-many-requests",
    "auth/network-request-failed"
  }

  /** `getAuthErrorMessage`: a user-friendly message for a provider code. */
  function AuthErrorMessage(code: string): (m: string)
    ensures m != ""
    ensures m == GenericAuthMessage <==> code !in KnownAuthCodes
    ensures m == NoAccountMessage <==> code == "auth/invalid-credential" || code == "auth/user-not-found"
  {
    match code
    case "auth/invalid-credential" => NoAccountMessage
    case "auth/user-not-found" => NoAccountMessage
    case "auth/wrong-password" => WrongPasswordMessage
    case "auth/invalid-email" => InvalidEmailMessage
    case "auth/email-already-in-use" => EmailInUseMessage
    case "auth/weak-password" => WeakPasswordMessage
    case "auth/too-many-requests" => TooManyRequestsMessage
    case "auth/network-request-failed" => NetworkMessage
    case _ => GenericAuthMessage
  }

  /** `error.code || error.message`: what is looked up in the message table. */
  function ErrorKey(e: ThrownError): (k: string)
    ensures e.code != "" ==> k == e.code
    ensures e.code == "" ==> k == e.message
  {
    if e.code != "" then e.code else e.message
  }

  /** The preferences written for a new account. */
  const DefaultPreferences := UserPreferences(false, true, "INR")

  /** The update `setOnboardingCompleted` sends. */
  function OnboardingPatch(completed: bool): (p: PartialPreferences)
    ensures p.onboardingCompleted == Some(completed) && p.darkMode.None? && p.currency.None?
  {
    PartialPreferences(Some(completed), None, None)
  }

  class Store {
    var user: Option<AppUser>
    var preferences: Option<PartialPreferences>
    var isLoading: bool
    var isInitialized: bool
    var error: Option<string>

    /** The initial state: loading, not yet initialised, nobody signed in. */
    constructor()
      ensures user == None && preferences == None && isLoading && !isInitialized && error == None
    {
      user := None;
      preferences := None;
      isLoading := true;
      isInitialized := false;
      error := None;
    }

    /** `loadPreferences`: a no-op without a user; otherwise the stored
        document (absent becomes `None`) replaces the preferences. A failed
        read is only logged. */
    method LoadPreferences(fetched: Result<Option<PartialPreferences>>)
      modifies this
      ensures user == old(user) && isLoading == old(isLoading) && isInitialized == old(isInitialized)
      ensures error == old(error)
      ensures old(user).Some? && fetched.Success? ==> preferences == fetched.value
      ensures !(old(user).Some? && fetched.Success?) ==> preferences == old(preferences)
    {
      if user.Some? {
        match fetched
        case Success(p) =>
          preferences := p;
        case Failure(_) =>
      }
    }

    /** The callback `initialize` registers with the identity provider.
        `signedIn` is the provider's user; `fetched` the preferences read that
        follows a sign-in. Either way the store becomes initialised. */
    method OnAuthStateChanged(signedIn: Option<AppUser>, fetched: Result<Option<PartialPreferences>>)
      modifies this
      ensures isInitialized && !isLoading && error == old(error)
      ensures user == signedIn
      ensures signedIn.None? ==> preferences == None
      ensures signedIn.Some? && fetched.Success? ==> preferences == fetched.value
      ensures signedIn.Some? && fetched.Failure? ==> preferences == old(preferences)
    {
      match signedIn
      case Some(_) =>
        user := signedIn;
        isLoading := false;
        isInitialized := true;
        LoadPreferences(fetched);
      case None =>
        user := None;
        preferences := None;
        isLoading := false;
        isInitialized := true;
    }

    /** `signUp`: creates the account, then writes the default preferences;
        only when both succeed is the user set. Either failure is shown
        through the message table and rethrown. */
    method SignUp(account: Call<AppUser>, write: Call<()>) returns (thrown: Option<ThrownError>)
      modifies this
      ensures !isLoading && isInitialized == old(isInitialized)
      ensures account.Returned? && write.Returned? ==>
                thrown.None? && user == Some(account.value)
                && preferences == Some(AllPreferences(DefaultPreferences)) && error == None
      ensures account.Threw? ==>
                thrown == Some(account.err) && user == old(user) && preferences == old(preferences)
                && error == Some(AuthErrorMessage(ErrorKey(account.err)))
      ensures account.Returned? && write.Threw? ==>
                thrown == Some(write.err) && user == old(user) && preferences == old(preferences)
                && error == Some(AuthErrorMessage(ErrorKey(write.err)))
    {
      isLoading := true;
      error := None;
      match account
      case Threw(e) =>
        error := Some(AuthErrorMessage(ErrorKey(e)));
        isLoading := false;
        thrown := Some(e);
      case Returned(u) =>
        match write
        case Threw(e) =>
          error := Some(AuthErrorMessage(ErrorKey(e)));
          isLoading := false;
          thrown := Some(e);
        case Returned(_) =>
          user := Some(u);
          preferences := Some(AllPreferences(DefaultPreferences));
          isLoading := false;
          thrown := None;
    }

    /** `signIn`: sets the user, then loads their preferences (whose failure
        is swallowed). A provider failure is shown and rethrown. */
    method SignIn(account: Call<AppUser>, fetched: Result<Option<PartialPreferences>>) returns (thrown: Option<ThrownError>)
      modifies this
      ensures !isLoading && isInitialized == old(isInitialized)
      ensures account.Returned? ==> thrown.None? && user == Some(account.value) && error == None
      ensures account.Returned? && fetched.Success? ==> preferences == fetched.value
      ensures account.Returned? && fetched.Failure? ==> preferences == old(preferences)
      ensures account.Threw? ==>
                thrown == Some(account.err) && user == old(user) && preferences == old(preferences)
                && error == Some(AuthErrorMessage(ErrorKey(account.err)))
    {
      isLoading := true;
      error := None;
      match account
      case Threw(e) =>
        error := Some(AuthErrorMessage(ErrorKey(e)));
        isLoading := false;
        thrown := Some(e);
      case Returned(u) =>
        user := Some(u);
        isLoading := false;
        LoadPreferences(fetched);
        thrown := None;
    }

    /** `signOut`: clears the user and the preferences; a failure keeps them,
        records `message || 'Failed to sign out'` and rethrows. The previous
        error is not cleared first. */
    method SignOut(call: Call<()>) returns (thrown: Option<ThrownError>)
      modifies this
      ensures !isLoading && isInitialized == old(isInitialized)
      ensures call.Returned? ==> thrown.None? && user == None && preferences == None && error == old(error)
      ensures call.Threw? ==>
                thrown == Some(call.err) && user == old(user) && preferences == old(preferences)
                && error == Some(OrElse(call.err.message, SignOutFallback))
    {
      isLoading := true;
      match call
      case Returned(_) =>
        user := None;
        preferences := None;
        isLoading := false;
        thrown := None;
      case Threw(e) =>
        error := Some(OrElse(e.message, SignOutFallback));
        isLoading := false;
        thrown := Some(e);
    }

    /** `updatePreferences`: a no-op without a user. Otherwise the update is
        written (`call`) and, on success, spread over the current preferences
        (over nothing when they are null). A failure is recorded, not
        rethrown. */
    method UpdatePreferences(patch: PartialPreferences, call: Outcome)
      modifies this
      ensures user == old(user) && isLoading == old(isLoading) && isInitialized == old(isInitialized)
      ensures old(user).None? ==> preferences == old(preferences) && error == old(error)
      ensures old(user).Some? && call.Pass? ==>
                preferences == Some(OverlayPreferences(old(preferences).GetOr(NoPreferences), patch))
                && error == old(error)
      ensures old(user).Some? && call.Fail? ==>
                preferences == old(preferences) && error == Some(OrElse(call.message, UpdatePreferencesFallback))
    {
      if user.Some? {
        match call
        case Pass =>
          preferences := Some(OverlayPreferences(preferences.GetOr(NoPreferences), patch));
        case Fail(m) =>
          error := Some(OrElse(m, UpdatePreferencesFallback));
      }
    }

    /** `setOnboardingCompleted`: an update of that one key; like
        `updatePreferences` it never throws. */
    method SetOnboardingCompleted(completed: bool, call: Outcome)
      modifies this
      ensures user == old(user) && isLoading == old(isLoading) && isInitialized == old(isInitialized)
      ensures old(user).Some? && call.Pass? ==>
                preferences.Some? && preferences.value.onboardingCompleted == Some(completed)
                && preferences.value.darkMode == old(preferences).GetOr(NoPreferences).darkMode
                && preferences.value.currency == old(preferences).GetOr(NoPreferences).currency
                && error == old(error)
      ensures !(old(user).Some? && call.Pass?) ==> preferences == old(preferences)
      ensures old(user).None? ==> error == old(error)
      ensures old(user).Some? && call.Fail? ==> error == Some(OrElse(call.message, UpdatePreferencesFallback))
    {
      UpdatePreferences(OnboardingPatch(completed), call);
    }

    /** `clearError`. */
    method ClearError()
      modifies this
      ensures error == None
      ensures user == old(user) && preferences == old(preferences)
      ensures isLoading == old(isLoading) && isInitialized == old(isInitialized)
    {
      error := None;
    }
  }

  /** Two different codes share the "no account" message; every other known
      code has a message no other code maps to. */
  lemma AuthMessagesDistinguishKnownCodes(c1: string, c2: string)
    requires c1 in KnownAuthCodes && c2 in KnownAuthCodes && c1 != c2
    requires !({c1, c2} <= {"auth/invalid-credential", "auth/user-not-found"})
    ensures AuthErrorMessage(c1) != AuthErrorMessage(c2)
  {
  }
}
