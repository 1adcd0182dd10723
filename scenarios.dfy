/** The app followed from start-up over a fresh store: the restore, then the
    actions the two screens issue, observed through the provider's state and
    a later restart on the same store. */
module Scenarios {
  import opened Wrappers
  import opened AuthContext
  import OnboardingScreen
  import ProfileScreen

  /** A first start on an empty store ends loading without onboarding, with
      the default profile. */
  method FreshInstall() returns (s: AuthState)
    ensures s == AuthState(false, false, None, None, DefaultProfile)
  {
    var store := new Store(None);
    var auth := new AuthProvider(store);
    auth.LoadProfileData(false);
    s := auth.state;
  }

  /** A start whose read rejects stays loading: nothing is dispatched. */
  method RestoreReadFails(stored: Option<Profile>) returns (s: AuthState)
    ensures s == InitialAuthState
    ensures s.isLoading
  {
    var store := new Store(stored);
    var auth := new AuthProvider(store);
    auth.LoadProfileData(true);
    s := auth.state;
  }

  /** Onboarding with the three submitted fields, then restarting on the same
      store, restores exactly that three-key profile as onboarded. */
  method OnboardThenRestart(firstName: string, lastName: string, email: string)
    returns (s: AuthState)
    ensures s.isOnboardingCompleted && !s.isLoading
    ensures s.profile == OnboardingScreen.Payload(firstName, lastName, email)
    ensures PhoneNumber !in s.profile && Image !in s.profile
  {
    var store := new Store(None);
    var auth := new AuthProvider(store);
    auth.LoadProfileData(false);
    auth.Onboard(OnboardingScreen.Payload(firstName, lastName, email), false);
    var restarted := new AuthProvider(store);
    restarted.LoadProfileData(false);
    s := restarted.state;
  }

  /** A rejected onboarding write leaves the restored state as it was: not
      onboarded, default profile, nothing stored. */
  method OnboardWriteFails(p: Profile) returns (s: AuthState, stored: Option<Profile>)
    ensures !s.isOnboardingCompleted && s.profile == DefaultProfile
    ensures stored.None?
  {
    var store := new Store(None);
    var auth := new AuthProvider(store);
    auth.LoadProfileData(false);
    auth.Onboard(p, true);
    s, stored := auth.state, store.profile;
  }

  /** Updating only the phone number of an onboarded profile stores the new
      number and keeps the three onboarding fields. */
  method UpdatePhoneNumber(firstName: string, lastName: string, email: string, phone: string)
    returns (stored: Option<Profile>)
    ensures stored.Some? && HasIdentity(stored.value) && PhoneNumber in stored.value
    ensures stored.value[PhoneNumber] == Str(phone)
    ensures stored.value[FirstName] == Str(firstName)
    ensures stored.value[LastName] == Str(lastName)
    ensures stored.value[Email] == Str(email)
  {
    var store := new Store(None);
    var auth := new AuthProvider(store);
    auth.LoadProfileData(false);
    auth.Onboard(OnboardingScreen.Payload(firstName, lastName, email), false);
    auth.UpdateProfile(map[PhoneNumber := Str(phone)], false);
    stored := store.profile;
  }

  /** Logging out keeps the profile in memory but empties the store, so the
      next start is not onboarded and has the default profile. */
  method LogoutThenRestart(p: Profile) returns (afterLogout: AuthState, afterRestart: AuthState)
    ensures !afterLogout.isOnboardingCompleted && afterLogout.profile == p
    ensures afterLogout.userToken.None? && afterLogout.isSignout == Some(true)
    ensures afterRestart == AuthState(false, false, None, None, DefaultProfile)
  {
    var store := new Store(None);
    var auth := new AuthProvider(store);
    auth.LoadProfileData(false);
    auth.Onboard(p, false);
    auth.Logout(false);
    afterLogout := auth.state;
    var restarted := new AuthProvider(store);
    restarted.LoadProfileData(false);
    afterRestart := restarted.state;
  }

  /** A rejected clear leaves the session onboarded, and the next start
      restores the same profile. */
  method LogoutClearFails(p: Profile) returns (afterLogout: AuthState, afterRestart: AuthState)
    ensures afterLogout.isOnboardingCompleted && afterLogout.profile == p
    ensures afterRestart.isOnboardingCompleted && afterRestart.profile == p
  {
    var store := new Store(None);
    var auth := new AuthProvider(store);
    auth.LoadProfileData(false);
    auth.Onboard(p, false);
    auth.Logout(true);
    afterLogout := auth.state;
    var restarted := new AuthProvider(store);
    restarted.LoadProfileData(false);
    afterRestart := restarted.state;
  }

  /** After onboarding, the profile screen opens on a well-formed copy, so its
      checks can run. Saving at once issues nothing, since the onboarding
      profile has no phone number. Once a phone number is typed in, a save is
      issued exactly when the form is valid, and a successful save stores the
      edited copy. */
  method EditAndSaveAfterOnboarding(firstName: string, lastName: string, email: string,
                                    phone: string, validateEmail: string -> bool,
                                    isNumeric: string -> bool)
    returns (firstSave: bool, secondSave: bool, stored: Option<Profile>)
    ensures !firstSave
    ensures secondSave <==>
      && ProfileScreen.ValidateName(firstName) && ProfileScreen.ValidateName(lastName)
      && validateEmail(email) && ProfileScreen.ValidateNumber(phone, isNumeric)
    ensures secondSave ==>
      stored == Some(OnboardingScreen.Payload(firstName, lastName, email)[PhoneNumber := Str(phone)])
    ensures !secondSave ==> stored == Some(OnboardingScreen.Payload(firstName, lastName, email))
    ensures stored.Some? && WellFormedProfile(stored.value)
  {
    var store := new Store(None);
    var auth := new AuthProvider(store);
    auth.LoadProfileData(false);
    var p := OnboardingScreen.Payload(firstName, lastName, email);
    auth.Onboard(p, false);
    var form := new ProfileScreen.ProfileForm(auth, validateEmail, isNumeric);
    ProfileScreen.NoPhoneNumberMeansInvalid(p, validateEmail, isNumeric);
    firstSave := form.HandleSave(false);
    form.HandleChange(PhoneNumber, Str(phone));
    var edited := p[PhoneNumber := Str(phone)];
    assert form.localProfile == edited;
    ProfileScreen.IsFormValidIff(edited, validateEmail, isNumeric);
    secondSave := form.HandleSave(false);
    stored := store.profile;
  }
}
