/** The settings page: the dark-mode and currency values it shows, the
    dark-mode toggle, the currency change, the reset of all the user's data
    and sign-out. */
module Settings {
  import opened Types
  import AuthStore
  import WalletStore
  import CategoryStore
  import TransactionStore
  import DataService
  import Theme

  const DefaultCurrency := "INR"
  const OnboardingRoute := "/onboarding"
  const LoginRoute := "/login"

  /** `preferences?.darkMode ?? true`: only an explicit `false` turns the
      switch off. */
  function IsDarkMode(preferences: Option<PartialPreferences>): (dark: bool)
    ensures !dark <==> preferences.Some? && preferences.value.darkMode == Some(false)
  {
    if preferences.Some? && preferences.value.darkMode.Some? then preferences.value.darkMode.value else true
  }

  /** `preferences?.currency ?? 'INR'`: only an absent key falls back, so an
      empty code is shown as it is. */
  function Currency(preferences: Option<PartialPreferences>): (c: string)
    ensures preferences.Some? && preferences.value.currency.Some? ==> c == preferences.value.currency.value
    ensures preferences.None? || preferences.value.currency.None? ==> c == DefaultCurrency
  {
    if preferences.Some? && preferences.value.currency.Some? then preferences.value.currency.value
    else DefaultCurrency
  }

  /** The update the toggle sends: the negation of the shown value, and no
      other key. */
  function TogglePatch(preferences: Option<PartialPreferences>): (p: PartialPreferences)
    ensures p.darkMode == Some(!IsDarkMode(preferences))
    ensures p.onboardingCompleted.None? && p.currency.None?
  {
    PartialPreferences(None, Some(!IsDarkMode(preferences)), None)
  }

  /** The theme the toggle applies to the document at once, whether or not
      the write succeeds: `!isDarkMode ? 'dark' : 'light'`. */
  function AppliedTheme(preferences: Option<PartialPreferences>): (t: Theme.Theme)
    ensures t == Theme.Dark <==> !IsDarkMode(preferences)
  {
    if !IsDarkMode(preferences) then Theme.Dark else Theme.Light
  }

  /** The preferences after a successful write of `patch` (the store spreads
      it over what it holds, or over nothing). */
  function Written(preferences: Option<PartialPreferences>, patch: PartialPreferences): Option<PartialPreferences> {
    Some(OverlayPreferences(preferences.GetOr(NoPreferences), patch))
  }

  /** A successful toggle flips the shown value and keeps the other keys;
      two toggles give the shown value back. */
  lemma ToggleFlips(preferences: Option<PartialPreferences>)
    ensures IsDarkMode(Written(preferences, TogglePatch(preferences))) == !IsDarkMode(preferences)
    ensures Currency(Written(preferences, TogglePatch(preferences))) == Currency(preferences)
    ensures Written(preferences, TogglePatch(preferences)).value.onboardingCompleted
         == preferences.GetOr(NoPreferences).onboardingCompleted
    ensures var once := Written(preferences, TogglePatch(preferences));
            IsDarkMode(Written(once, TogglePatch(once))) == IsDarkMode(preferences)
  {
  }

  /** The page and the application theme read an absent darkMode key in
      opposite ways: the switch shows dark while the application renders
      light, and the first toggle writes `false`, so the theme stays light
      (the toggle applies light at once and the written preference agrees). */
  lemma DarkModeDefaultsDisagree(preferences: Option<PartialPreferences>, osPrefersDark: bool)
    requires preferences.None? || preferences.value.darkMode.None?
    ensures IsDarkMode(preferences)
    ensures Theme.ResolveTheme(true, preferences, None, osPrefersDark) == Some(Theme.Light)
    ensures AppliedTheme(preferences) == Theme.Light
    ensures Theme.ResolveTheme(true, Written(preferences, TogglePatch(preferences)), None, osPrefersDark)
         == Some(Theme.Light)
  {
    Theme.DarkModeDecides(preferences, osPrefersDark);
    Theme.DarkModeDecides(Written(preferences, TogglePatch(preferences)), osPrefersDark);
  }

  /** A successful currency change shows the new code and keeps the other
      keys. */
  lemma CurrencyChangeShows(preferences: Option<PartialPreferences>, code: string)
    ensures Currency(Written(preferences, PartialPreferences(None, None, Some(code)))) == code
    ensures IsDarkMode(Written(preferences, PartialPreferences(None, None, Some(code)))) == IsDarkMode(preferences)
  {
  }

  /** The page's own state: the reset spinner and the confirm dialog. */
  class Page {
    var isResetting: bool
    var showResetConfirm: bool

    constructor()
      ensures !isResetting && !showResetConfirm
    {
      isResetting := false;
      showResetConfirm := false;
    }

    /** `handleToggleDarkMode`: writes the negated value and applies the
        matching theme. */
    method ToggleDarkMode(auth: AuthStore.Store, call: Outcome) returns (applied: Theme.Theme)
      modifies auth
      ensures applied == AppliedTheme(old(auth.preferences))
      ensures auth.user == old(auth.user) && auth.isLoading == old(auth.isLoading)
      ensures old(auth.user).Some? && call.Pass? ==>
                auth.preferences == Written(old(auth.preferences), TogglePatch(old(auth.preferences)))
                && IsDarkMode(auth.preferences) == !IsDarkMode(old(auth.preferences))
      ensures old(auth.user).None? || call.Fail? ==> auth.preferences == old(auth.preferences)
    {
      var before := auth.preferences;
      auth.UpdatePreferences(TogglePatch(before), call);
      ToggleFlips(before);
      applied := AppliedTheme(before);
    }

    /** `handleCurrencyChange`. */
    method ChangeCurrency(auth: AuthStore.Store, code: string, call: Outcome)
      modifies auth
      ensures auth.user == old(auth.user) && auth.isLoading == old(auth.isLoading)
      ensures old(auth.user).Some? && call.Pass? ==>
                Currency(auth.preferences) == code && IsDarkMode(auth.preferences) == IsDarkMode(old(auth.preferences))
      ensures old(auth.user).None? || call.Fail? ==> auth.preferences == old(auth.preferences)
    {
      var before := auth.preferences;
      auth.UpdatePreferences(PartialPreferences(None, None, Some(code)), call);
      CurrencyChangeShows(before, code);
    }

    /** `handleResetApp`. Without a user nothing happens. Otherwise the
        stored data is cleared (`failAt` is the step of that call that
        fails, if any); only when that succeeds are the three local lists
        emptied, the onboarding flag written as false and the page sent to
        onboarding. Either way the spinner and the dialog end closed. */
    method ResetApp(auth: AuthStore.Store, docs: DataService.UserDocuments, failAt: Option<nat>,
                    wallets: WalletStore.Store, categories: CategoryStore.Store,
                    transactions: TransactionStore.Store, prefCall: Outcome)
      returns (navigateTo: Option<string>)
      modifies this, auth, docs, wallets, categories, transactions
      ensures old(auth.user).None? ==>
                navigateTo.None? && unchanged(this, auth, docs, wallets, categories, transactions)
      ensures old(auth.user).Some? ==> !isResetting && !showResetConfirm && auth.user == old(auth.user)
      ensures old(auth.user).Some? && (failAt.None? || failAt.value > 3) ==>
                navigateTo == Some(OnboardingRoute)
                && docs.wallets == [] && docs.categories == [] && docs.transactions == []
                && wallets.wallets == [] && categories.categories == [] && transactions.transactions == []
                && (prefCall.Pass? ==> auth.preferences.Some?
                                       && auth.preferences.value.onboardingCompleted == Some(false)
                                       && auth.preferences.value.darkMode == old(auth.preferences).GetOr(NoPreferences).darkMode
                                       && auth.preferences.value.currency == old(auth.preferences).GetOr(NoPreferences).currency
                                       && auth.error == old(auth.error))
                && (prefCall.Fail? ==> auth.preferences == old(auth.preferences)
                                       && auth.error == Some(OrElse(prefCall.message, AuthStore.UpdatePreferencesFallback)))
      ensures old(auth.user).Some? && failAt.Some? && failAt.value <= 3 ==>
                navigateTo.None?
                && wallets.wallets == old(wallets.wallets) && categories.categories == old(categories.categories)
                && transactions.transactions == old(transactions.transactions)
                && auth.preferences == old(auth.preferences) && auth.error == old(auth.error)
    {
      navigateTo := None;
      if auth.user.None? {
        return;
      }
      isResetting := true;
      var cleared := docs.ClearAllUserData(failAt);
      if cleared.Pass? {
        wallets.ClearWallets();
        categories.ClearCategories();
        transactions.ClearTransactions();
        auth.UpdatePreferences(AuthStore.OnboardingPatch(false), prefCall);
        navigateTo := Some(OnboardingRoute);
      }
      isResetting := false;
      showResetConfirm := false;
    }

    /** `handleSignOut`: to the login page on success; a failure is only
        logged (the store keeps its message). */
    method SignOut(auth: AuthStore.Store, call: AuthStore.Call<()>) returns (navigateTo: Option<string>)
      modifies auth
      ensures navigateTo.Some? <==> call.Returned?
      ensures navigateTo.Some? ==> navigateTo.value == LoginRoute && auth.user.None? && auth.preferences.None?
      ensures call.Threw? ==> auth.user == old(auth.user) && auth.preferences == old(auth.preferences)
    {
      var thrown := auth.SignOut(call);
      navigateTo := if thrown.None? then Some(LoginRoute) else None;
    }
  }
}
