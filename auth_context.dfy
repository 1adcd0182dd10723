/** The session/profile state machine of the app's authentication context: the
    profile object, the reducer over the session state, the key-value store the
    provider persists the profile in, and the provider's four effectful actions. */
module AuthContext {
  import opened Wrappers

  // ---------------------------------------------------------------------------
  // Profile objects
  // ---------------------------------------------------------------------------

  /** The keys a profile object carries; the notification flags sit directly on
      the profile, not in a nested record. */
  datatype Field =
    | FirstName | LastName | Email | PhoneNumber
    | OrderStatuses | PasswordChanges | SpecialOffers | Newsletter
    | Image

  /** A value held under a profile key: text inputs and the image URI give
      strings, the notification checkboxes give booleans. */
  datatype Value = Str(s: string) | Flag(b: bool)

  /** A profile object. A key missing from the map is missing from the object,
      as in the three-key object the onboarding screen submits. JSON
      serialisation for the store is the identity on these values. */
  type Profile = map<Field, Value>

  /** Whether a key is edited through a text input or through a checkbox. */
  datatype Kind = Text | Toggle

  function KindOf(f: Field): Kind {
    match f
    case OrderStatuses | PasswordChanges | SpecialOffers | Newsletter => Toggle
    case FirstName | LastName | Email | PhoneNumber | Image => Text
  }

  predicate HasKind(v: Value, k: Kind) {
    match v
    case Str(_) => k == Text
    case Flag(_) => k == Toggle
  }

  /** Every key present holds a value of the kind its input produces. */
  predicate Conforms(p: Profile) {
    forall f :: f in p ==> HasKind(p[f], KindOf(f))
  }

  /** The keys the profile screen reads without a guard (its name checks read
      `.length` of the first and last name, and the email goes to the email
      check). */
  predicate HasIdentity(p: Profile) {
    FirstName in p && LastName in p && Email in p
  }

  /** A profile the app's own inputs produce: well typed, with the identity
      keys present. */
  predicate WellFormedProfile(p: Profile) {
    Conforms(p) && HasIdentity(p)
  }

  /** The profile of the initial state: every key present, empty strings and
      unset flags. */
  const DefaultProfile: Profile := map[
    FirstName := Str(""), LastName := Str(""), Email := Str(""), PhoneNumber := Str(""),
    OrderStatuses := Flag(false), PasswordChanges := Flag(false),
    SpecialOffers := Flag(false), Newsletter := Flag(false),
    Image := Str("")]

  /** `{ ...base, ...updates }`: every key of `updates` overrides, every other key
      of `base` keeps its value. */
  function Merge(base: Profile, updates: Profile): (r: Profile)
    ensures r.Keys == base.Keys + updates.Keys
    ensures forall f :: f in updates ==> r[f] == updates[f]
    ensures forall f :: f in base && f !in updates ==> r[f] == base[f]
  {
    base + updates
  }

  /** Merging an update that carries every key of the base yields the update
      itself: saving a full copy of the profile stores exactly that copy. */
  lemma MergeWithFullUpdate(base: Profile, updates: Profile)
    requires base.Keys <= updates.Keys
    ensures Merge(base, updates) == updates
  {
  }

  lemma DefaultProfileWellFormed()
    ensures WellFormedProfile(DefaultProfile)
    ensures forall f: Field :: f in DefaultProfile
  {
    forall f: Field ensures f in DefaultProfile && HasKind(DefaultProfile[f], KindOf(f)) {
      match f
      case FirstName =>
      case LastName =>
      case Email =>
      case PhoneNumber =>
      case OrderStatuses =>
      case PasswordChanges =>
      case SpecialOffers =>
      case Newsletter =>
      case Image =>
    }
  }

  lemma MergePreservesWellFormed(base: Profile, updates: Profile)
    requires Conforms(base) && Conforms(updates)
    ensures Conforms(Merge(base, updates))
    ensures HasIdentity(base) ==> HasIdentity(Merge(base, updates))
  {
  }

  // ---------------------------------------------------------------------------
  // The session state and the reducer
  // ---------------------------------------------------------------------------

  /** The provider's state. `userToken` is `null` in the initial state and
      `isSignout` is absent from it until a sign-in or sign-out action. */
  datatype AuthState = AuthState(
    isLoading: bool,
    isOnboardingCompleted: bool,
    userToken: Option<string>,
    isSignout: Option<bool>,
    profile: Profile)

  const InitialAuthState: AuthState := AuthState(true, false, None, None, DefaultProfile)

  /** The app starts loading and not onboarded, with no token and no sign-out
      flag, and with a well-formed profile holding every key: each text key
      empty and each toggle off. */
  lemma InitialAuthStateFacts()
    ensures InitialAuthState.isLoading && !InitialAuthState.isOnboardingCompleted
    ensures InitialAuthState.userToken.None? && InitialAuthState.isSignout.None?
    ensures WellFormedProfile(InitialAuthState.profile)
    ensures forall f: Field :: f in InitialAuthState.profile &&
              InitialAuthState.profile[f] == (if KindOf(f) == Text then Str("") else Flag(false))
  {
    DefaultProfileWellFormed();
  }

  /** The actions the reducer recognises, plus `Other` for a type string
      outside `RecognisedTypes`. `Onboard.newProfile` is `None` when the action carries no
      profile. */
  datatype Action =
    | RestoreToken(token: Option<string>)
    | SignIn(token: Option<string>)
    | SignOut
    | Onboard(completed: bool, newProfile: Option<Profile>)
    | UpdateProfile(updates: Profile)
    | Other(kind: string)

  /** `authReducer`: each case returns the state with the listed fields
      replaced; an unrecognised type returns the state itself. */
  function Reduce(state: AuthState, action: Action): AuthState {
    match action
    case RestoreToken(token) => state.(userToken := token, isLoading := false)
    case SignIn(token) => state.(isSignout := Some(false), userToken := token)
    case SignOut => state.(isSignout := Some(true), userToken := None)
    case Onboard(completed, newProfile) =>
      state.(isLoading := false, isOnboardingCompleted := completed,
             profile := newProfile.GetOr(state.profile))
    case UpdateProfile(updates) => state.(profile := Merge(state.profile, updates))
    case Other(_) => state
  }

  /** The state after dispatching `actions` in order. */
  function ReduceAll(state: AuthState, actions: seq<Action>): AuthState
    decreases |actions|
  {
    if |actions| == 0 then state else ReduceAll(Reduce(state, actions[0]), actions[1..])
  }

  /** No action sets `isLoading`, so once it is false it stays false. */
  lemma {:induction false} LoadingNeverResumes(state: AuthState, actions: seq<Action>)
    requires !state.isLoading
    ensures !ReduceAll(state, actions).isLoading
    decreases |actions|
  {
    if |actions| > 0 {
      LoadingNeverResumes(Reduce(state, actions[0]), actions[1..]);
    }
  }

  /** `isLoading` goes from true to false only through `RESTORE_TOKEN` and
      `ONBOARD`, and never the other way. */
  lemma LoadingEndsOnlyByRestoreOrOnboard(state: AuthState, action: Action)
    ensures Reduce(state, action).isLoading ==> state.isLoading
    ensures state.isLoading && !Reduce(state, action).isLoading ==>
              action.RestoreToken? || action.Onboard?
  {
  }

  /** `UPDATE_PROFILE` merges the update into the profile and touches nothing
      else. */
  lemma UpdateProfileMerges(state: AuthState, updates: Profile)
    ensures var r := Reduce(state, UpdateProfile(updates));
      && r.profile.Keys == state.profile.Keys + updates.Keys
      && (forall f :: f in updates ==> r.profile[f] == updates[f])
      && (forall f :: f in state.profile && f !in updates ==> r.profile[f] == state.profile[f])
      && r.isLoading == state.isLoading
      && r.isOnboardingCompleted == state.isOnboardingCompleted
      && r.userToken == state.userToken
      && r.isSignout == state.isSignout
  {
  }

  /** `ONBOARD` ends loading, sets the onboarding flag from the action, and
      replaces the profile when the action carries one. */
  lemma OnboardSetsFlagsAndProfile(state: AuthState, completed: bool, newProfile: Option<Profile>)
    ensures var r := Reduce(state, Onboard(completed, newProfile));
      && !r.isLoading
      && r.isOnboardingCompleted == completed
      && (newProfile.Some? ==> r.profile == newProfile.value)
      && (newProfile.None? ==> r.profile == state.profile)
      && r.userToken == state.userToken
      && r.isSignout == state.isSignout
  {
  }

  /** `SIGN_OUT` clears the token and marks the sign-out, leaving the profile,
      the onboarding flag and the loading flag alone. */
  lemma SignOutKeepsProfile(state: AuthState)
    ensures var r := Reduce(state, SignOut);
      && r.userToken.None? && r.isSignout == Some(true)
      && r.profile == state.profile
      && r.isOnboardingCompleted == state.isOnboardingCompleted
      && r.isLoading == state.isLoading
  {
  }

  /** The type strings the reducer's switch recognises. */
  const RecognisedTypes: set<string> :=
    {"RESTORE_TOKEN", "SIGN_IN", "SIGN_OUT", "ONBOARD", "UPDATE_PROFILE"}

  /** An unrecognised action type leaves the state as it is. */
  lemma OtherActionIsIdentity(state: AuthState, kind: string)
    requires kind !in RecognisedTypes
    ensures Reduce(state, Other(kind)) == state
  {
  }

  /** Only `ONBOARD` changes the onboarding flag, and only `ONBOARD` and
      `UPDATE_PROFILE` change the profile. */
  lemma OnlyOnboardChangesOnboarding(state: AuthState, action: Action)
    ensures Reduce(state, action).isOnboardingCompleted != state.isOnboardingCompleted ==> action.Onboard?
    ensures Reduce(state, action).profile != state.profile ==> action.Onboard? || action.UpdateProfile?
  {
  }

  /** The profile an action may install or merge in is well formed. */
  predicate ActionWellFormed(action: Action) {
    match action
    case Onboard(_, newProfile) => newProfile.Some? ==> WellFormedProfile(newProfile.value)
    case UpdateProfile(updates) => Conforms(updates)
    case _ => true
  }

  /** Well-formed actions keep the profile well formed: every key holds the
      kind of value its input produces and the identity keys stay present. */
  lemma {:induction false} ReducePreservesWellFormed(state: AuthState, actions: seq<Action>)
    requires Conforms(state.profile) && HasIdentity(state.profile)
    requires forall i :: 0 <= i < |actions| ==> ActionWellFormed(actions[i])
    ensures Conforms(ReduceAll(state, actions).profile)
    ensures HasIdentity(ReduceAll(state, actions).profile)
    decreases |actions|
  {
    if |actions| > 0 {
      var next := Reduce(state, actions[0]);
      assert ActionWellFormed(actions[0]);
      if actions[0].UpdateProfile? {
        MergePreservesWellFormed(state.profile, actions[0].updates);
      }
      ReducePreservesWellFormed(next, actions[1..]);
    }
  }

  // ---------------------------------------------------------------------------
  // The key-value store
  // ---------------------------------------------------------------------------

  /** The key the provider stores the profile under. */
  const ProfileKey: string := "profile"

  /** The persistent key-value store, reduced to the one key the provider uses.
      Each operation is told by its caller whether it fails (rejects). */
  class Store {
    /** The profile stored under `ProfileKey`; `None` when the key is absent. */
    var profile: Option<Profile>

    constructor (initial: Option<Profile>)
      ensures profile == initial
    {
      profile := initial;
    }

    /** `getItem(ProfileKey)`: either rejects (`ok` is false) or returns the
        stored item; the store is not changed. */
    method GetItem(fails: bool) returns (ok: bool, item: Option<Profile>)
      ensures ok == !fails
      ensures ok ==> item == profile
    {
      ok := !fails;
      item := if ok then profile else None;
    }

    /** `setItem(ProfileKey, p)`: on success the whole record is replaced; a
        failed write leaves the old value in place. */
    method SetItem(p: Profile, fails: bool) returns (ok: bool)
      modifies this
      ensures ok == !fails
      ensures profile == if ok then Some(p) else old(profile)
    {
      ok := !fails;
      if ok {
        profile := Some(p);
      }
    }

    /** `clear()`: on success every key is removed. */
    method Clear(fails: bool) returns (ok: bool)
      modifies this
      ensures ok == !fails
      ensures profile == if ok then None else old(profile)
    {
      ok := !fails;
      if ok {
        profile := None;
      }
    }
  }

  /** Writing a profile and reading it back returns that profile. */
  method StoreRoundTrip(store: Store, p: Profile) returns (item: Option<Profile>)
    modifies store
    ensures store.profile == Some(p)
    ensures item == Some(p)
  {
    var written := store.SetItem(p, false);
    var read;
    read, item := store.GetItem(false);
  }

  // ---------------------------------------------------------------------------
  // The provider and its actions
  // ---------------------------------------------------------------------------

  /** The context provider: the reducer's state and the store it persists to.
      Each action awaits one store call and, when that call does not reject,
      dispatches to the reducer; a rejection is caught and nothing is
      dispatched. */
  class AuthProvider {
    var state: AuthState
    const store: Store

    constructor (store: Store)
      ensures this.store == store
      ensures state == InitialAuthState
      ensures (store.profile.Some? ==> WellFormedProfile(store.profile.value)) ==> WellFormed()
    {
      this.store := store;
      state := InitialAuthState;
      DefaultProfileWellFormed();
    }

    /** The in-memory profile, and the stored record when there is one, are
        well formed. */
    predicate WellFormed()
      reads this, store
    {
      && WellFormedProfile(state.profile)
      && (store.profile.Some? ==> WellFormedProfile(store.profile.value))
    }

    /** Memory and storage agree: the stored record is the in-memory profile. */
    predicate Consistent()
      reads this, store
    {
      store.profile == Some(state.profile)
    }

    /** `dispatch`: the state becomes the reducer's result. */
    method Dispatch(action: Action)
      modifies this
      ensures state == Reduce(old(state), action)
    {
      state := Reduce(state, action);
    }

    /** `loadProfileData`, run once at mount. A stored profile finishes onboarding
        with exactly that profile; an absent one ends loading without
        onboarding; a rejected read dispatches nothing, so loading does not
        end. The store is only read. */
    method LoadProfileData(readFails: bool)
      modifies this
      ensures store.profile == old(store.profile)
      ensures readFails ==> state == old(state)
      ensures !readFails && store.profile.Some? ==>
                state == old(state).(isLoading := false, isOnboardingCompleted := true,
                                     profile := store.profile.value)
      ensures !readFails && store.profile.None? ==>
                state == old(state).(isLoading := false, isOnboardingCompleted := false)
      ensures !readFails && store.profile.Some? ==> Consistent()
      ensures old(WellFormed()) ==> WellFormed()
    {
      var ok, item := store.GetItem(readFails);
      if ok {
        if item.Some? {
          Dispatch(Action.Onboard(true, Some(item.value)));
        } else {
          Dispatch(Action.Onboard(false, None));
        }
      }
    }

    /** `onboard(profileData)`: a successful write stores the object and
        installs it as the profile with onboarding completed; a rejected write
        changes nothing. */
    method Onboard(profileData: Profile, writeFails: bool)
      modifies this, store
      ensures store.profile == if writeFails then old(store.profile) else Some(profileData)
      ensures state == if writeFails then old(state)
                       else old(state).(isLoading := false, isOnboardingCompleted := true,
                                        profile := profileData)
      ensures !writeFails ==> Consistent()
      ensures old(WellFormed()) && WellFormedProfile(profileData) ==> WellFormed()
    {
      var ok := store.SetItem(profileData, writeFails);
      if ok {
        Dispatch(Action.Onboard(true, Some(profileData)));
      }
    }

    /** `updateProfile(profileUpdates)`: the merge of the current profile and
        the updates is written in full; on success the in-memory profile
        becomes that same merge, so memory and storage agree; a rejected write
        changes neither. */
    method UpdateProfile(updates: Profile, writeFails: bool)
      modifies this, store
      ensures writeFails ==> store.profile == old(store.profile) && state == old(state)
      ensures !writeFails ==>
                state == old(state).(profile := Merge(old(state.profile), updates))
      ensures !writeFails ==> Consistent()
      ensures old(WellFormed()) && Conforms(updates) ==> WellFormed()
    {
      var updatedProfile := Merge(state.profile, updates);
      if WellFormed() && Conforms(updates) {
        MergePreservesWellFormed(state.profile, updates);
      }
      var ok := store.SetItem(updatedProfile, writeFails);
      if ok {
        Dispatch(Action.UpdateProfile(updates));
      }
    }

    /** `logout()`: a successful clear empties the store, then `SIGN_OUT` and an
        `ONBOARD` without a profile reset the token and the onboarding flag; the
        in-memory profile is kept. A rejected clear changes nothing. */
    method Logout(clearFails: bool)
      modifies this, store
      ensures old(WellFormed()) ==> WellFormed()
      ensures clearFails ==> store.profile == old(store.profile) && state == old(state)
      ensures !clearFails ==> store.profile.None?
      ensures !clearFails ==>
                state == old(state).(isLoading := false, isOnboardingCompleted := false,
                                     userToken := None, isSignout := Some(true))
    {
      var ok := store.Clear(clearFails);
      if ok {
        Dispatch(SignOut);
        Dispatch(Action.Onboard(false, None));
      }
    }
  }
}
