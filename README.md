# Little Lemon session and profile state, in Dafny

This project models the client-side session/profile core of the Little Lemon
ordering app. It has three parts.

- **The authentication context** (`auth_context.dfy`, module `AuthContext`).
  - `authReducer` is the pure function `Reduce`. It works over the state
    `{isLoading, isOnboardingCompleted, userToken, isSignout, profile}`.
  - The provider is the class `AuthProvider`. It holds the reducer state and a
    key-value `Store`.
  - The provider has four effectful actions: the start-up restore
    `loadProfileData`, and `onboard`, `updateProfile` and `logout`. Each one
    does a single store call on key `"profile"`. If the call succeeds, the action
    dispatches to the reducer. If the call rejects, the action dispatches nothing.
- **The profile screen** (`profile_screen.dfy`, module `ProfileScreen`).
  - It has the field checks `validateName`, `validateNumber` and
    `getIsFormValid`.
  - It has the local profile copy (class `ProfileForm`) that these edits change:
    `handleChange`, `removeImage`, the `pickImage` result, and "Discard changes".
  - `handleSave` issues `updateProfile` only when the form is valid.
- **The onboarding screen** (`onboarding_screen.dfy`, module
  `OnboardingScreen`).
  - Its `validateName` is truthy when a name is *invalid*.
  - The `isFormValid` flag is kept in step with the inputs by an effect.
  - The submit button hands exactly `{firstName, lastName, email}` to `onboard`.

Both screens search names with the regular expression `/[^a-zA-Z]/`. That
search is modelled once, in `name_match.dfy` (module `NameMatch`). The file
`scenarios.dfy` follows the app from start-up over a fresh store through
onboarding, profile edits and saves, and logout.

How things are represented:

- A profile is a `map<Field, Value>`, so a missing key can be represented. This
  matters for the three-key object that onboarding submits.
- The notification flags are flat keys of the profile.
- `{...a, ...b}` is Dafny's right-biased map union (`Merge`).
- The store is a class with one `Option<Profile>`; `None` means the key is
  absent.
- Each store call takes a `fails` flag from its caller. The flag says whether
  the call rejects.
- `JSON.stringify` and `JSON.parse` are taken as the identity on profiles.

The model follows what the code does:

- A rejected restore read dispatches nothing, so `isLoading` stays true. The
  app does not fail over to onboarding.
- `logout` keeps the in-memory profile. Its second dispatch is an `ONBOARD`
  action that carries no profile, and the reducer then keeps the old one.
- A rejected `clear` changes no state, because the whole `logout` body sits
  in the `try`.
- Failures of `onboard` and `updateProfile` are only logged. They are not
  returned to the caller.
- Nothing makes concurrent `updateProfile` calls run one after another.

## Model

| member | source | states |
|---|---|---|
| `NameMatch.FirstNonLetter` | screens/Profile.js:24 | The search for a character outside `[a-zA-Z]`: a found index is in range and points at a non-letter. It finds nothing exactly when every character is a letter. |
| `AuthContext.Merge` | AuthContext.js:40 | A spread merge has the union of the keys. Every key of the update overrides. Every other key of the base keeps its value. |
| `AuthContext.MergeWithFullUpdate` | AuthContext.js:85 | If the update has every key of the base, the merge is the update itself. |
| `AuthContext.InitialAuthStateFacts` | AuthContext.js:7-22 | The app starts loading and not onboarded, with a null token and no sign-out flag. Its profile holds every key, each text key empty and each toggle off. |
| `AuthContext.DefaultProfileWellFormed` | AuthContext.js:11-21 | The initial profile has every key, and each key holds the kind of value its input produces. |
| `AuthContext.MergePreservesWellFormed` | AuthContext.js:40 | Merging well-typed profiles gives a well-typed profile. The first-name, last-name and email keys stay present. |
| `AuthContext.Reduce` | AuthContext.js:24-44 | Defines `authReducer` case by case: each recognised action replaces the fields its case lists, and any other type returns the state itself. Its properties are the reducer lemmas below. |
| `AuthContext.ReduceAll` | AuthContext.js:47 | Defines the state after dispatching a sequence of actions in order, starting from a given state. |
| `AuthContext.LoadingNeverResumes` | AuthContext.js:24-44 | Once `isLoading` is false, it stays false under any sequence of actions. |
| `AuthContext.LoadingEndsOnlyByRestoreOrOnboard` | AuthContext.js:24-44 | No action sets `isLoading` to true. Only `RESTORE_TOKEN` and `ONBOARD` set it to false. |
| `AuthContext.UpdateProfileMerges` | AuthContext.js:39-40 | `UPDATE_PROFILE` overrides each key in the update and keeps each key it lacks. The loading flag, onboarding flag, token and sign-out flag are unchanged. |
| `AuthContext.OnboardSetsFlagsAndProfile` | AuthContext.js:32-38 | `ONBOARD` sets `isLoading` to false and sets the onboarding flag from the action. When the action carries a profile, that profile is installed; otherwise the old profile is kept. The token is unchanged. |
| `AuthContext.SignOutKeepsProfile` | AuthContext.js:30-31 | `SIGN_OUT` sets the token to null and `isSignout` to true. It keeps the profile, the onboarding flag and the loading flag. |
| `AuthContext.OtherActionIsIdentity` | AuthContext.js:41-42 | An action whose type string is none of the five recognised ones returns the state unchanged. |
| `AuthContext.OnlyOnboardChangesOnboarding` | AuthContext.js:24-44 | Only `ONBOARD` changes the onboarding flag. Only `ONBOARD` and `UPDATE_PROFILE` change the profile. |
| `AuthContext.ReducePreservesWellFormed` | AuthContext.js:24-44 | Under well-formed actions, every reachable profile stays well typed and keeps its first-name, last-name and email keys. |
| `AuthContext.Store.constructor` | AuthContext.js:2 | The store starts with the given record, or with the profile key absent. |
| `AuthContext.Store.GetItem` | AuthContext.js:52 | A read rejects exactly when told to. Otherwise it returns the stored item. |
| `AuthContext.Store.SetItem` | AuthContext.js:73 | A successful write replaces the whole record. A rejected write leaves the old value. |
| `AuthContext.Store.Clear` | AuthContext.js:95 | A successful clear removes the profile key. A rejected clear leaves it. |
| `AuthContext.StoreRoundTrip` | AuthContext.js:86 | Writing a profile and then reading it back returns that profile. |
| `AuthContext.AuthProvider.constructor` | AuthContext.js:47 | The provider starts in the initial state: loading, not onboarded, null token, default profile. Over a store that is empty or holds a well-formed record, it starts well formed. |
| `AuthContext.AuthProvider.WellFormed` | AuthContext.js:70-101 | The invariant the actions keep: the in-memory profile, and the stored record when there is one, are well typed and have the first-name, last-name and email keys. |
| `AuthContext.AuthProvider.Consistent` | AuthContext.js:73-78 | Memory and storage agree: the stored record is the in-memory profile. |
| `AuthContext.AuthProvider.Dispatch` | AuthContext.js:47 | The new state is the reducer's result for the old state and the action. |
| `AuthContext.AuthProvider.LoadProfileData` | AuthContext.js:50-65 | If a profile is stored, the state becomes onboarded with exactly that profile, and memory matches storage. If nothing is stored, loading ends and the state is not onboarded. If the read rejects, the state is unchanged. The store is never modified. A well-formed provider stays well formed. |
| `AuthContext.AuthProvider.Onboard` | AuthContext.js:71-82 | On a successful write, the store holds the object, the object is the profile, onboarding is complete, and loading has ended. On a rejected write, the state and the store are unchanged. A well-formed provider given a well-formed object stays well formed. |
| `AuthContext.AuthProvider.UpdateProfile` | AuthContext.js:83-92 | On a successful write, the in-memory profile is the merge of the old profile and the updates, and the store holds that same record. On a rejected write, neither the state nor the store changes. A well-formed provider given well-typed updates stays well formed. |
| `AuthContext.AuthProvider.Logout` | AuthContext.js:93-101 | On a successful clear, the store is empty, the token is null, `isSignout` is true, the state is not onboarded, and the profile is kept. On a rejected clear, nothing changes. A well-formed provider stays well formed. |
| `ProfileScreen.ValidateName` | screens/Profile.js:24 | A name is valid exactly when it is non-empty and every character is in `a-zA-Z`. |
| `ProfileScreen.ValidateNumber` | screens/Profile.js:25 | Defines `validateNumber` as the numeric check on the string together with a length of exactly ten; its meaning is stated by the next row. |
| `ProfileScreen.ValidateNumberCharacterised` | screens/Profile.js:25 | A number whose length is not 10 is rejected. Every ten-digit string is accepted. |
| `ProfileScreen.NameField` | screens/Profile.js:36-37 | Defines the name check on a present value: a string goes to `validateName`, and a boolean, which has no `length`, fails. |
| `ProfileScreen.EmailField` | screens/Profile.js:38 | Defines the email check on the email value: a string goes to the email predicate, and a boolean fails. |
| `ProfileScreen.NumberField` | screens/Profile.js:39 | Defines the number check on the phone key: an absent key or a boolean fails, and a string goes to `validateNumber`. |
| `ProfileScreen.IsFormValid` | screens/Profile.js:34-41 | Defines `getIsFormValid` on a profile with the identity keys as the four field checks in order; its meaning is stated by the next row. |
| `ProfileScreen.IsFormValidIff` | screens/Profile.js:34-41 | The form is valid exactly when all four checks pass. Both names must be non-empty strings of letters. The email must pass the email check. The phone number must be present, be 10 characters long, and be numeric. |
| `ProfileScreen.NoPhoneNumberMeansInvalid` | screens/Profile.js:39 | A profile without a phone key, such as the one onboarding stores, never passes the form check. |
| `ProfileScreen.ProfileForm.Valid` | screens/Profile.js:22 | The invariant of the local copy: it is well typed and has the first-name, last-name and email keys that `getIsFormValid` reads. |
| `ProfileScreen.ProfileForm.constructor` | screens/Profile.js:22 | The local copy starts as the context's profile, so it is valid when the context's profile is well formed. |
| `ProfileScreen.ProfileForm.HandleChange` | screens/Profile.js:27-32 | Key `key` holds the new value. Every other key keeps its presence and its value. The identity keys stay present, and a value of the key's kind keeps the copy valid. |
| `ProfileScreen.ProfileForm.RemoveImage` | screens/Profile.js:56 | The image becomes `""`, and nothing else changes. A valid copy stays valid. |
| `ProfileScreen.ProfileForm.PickImage` | screens/Profile.js:51-53 | A cancelled pick changes nothing. Any other pick sets the image to the first asset's URI. A valid copy stays valid. |
| `ProfileScreen.ProfileForm.Discard` | screens/Profile.js:155 | The local copy is reset to the context's profile, so it is valid when the context's profile is well formed. |
| `ProfileScreen.ProfileForm.GetIsFormValid` | screens/Profile.js:34-41 | Defines `getIsFormValid` on the local copy as `IsFormValid` of that copy. |
| `ProfileScreen.ProfileForm.HandleSave` | screens/Profile.js:58-65 | `updateProfile(localProfile)` is issued exactly when the form is valid. When it is not issued, or its write rejects, neither the context nor the store changes. When it succeeds, the context holds the merge, memory matches storage, and a local copy that has every context key is installed as it is. A well-formed provider saved from a well-typed copy stays well formed. |
| `OnboardingScreen.ValidateName` | screens/Onboarding.js:23-29 | The result is truthy for the empty name. For a non-empty name, it is truthy exactly when the name holds a character outside `a-zA-Z`. A match points at such a character. |
| `OnboardingScreen.ValidatorsAgree` | screens/Onboarding.js:23-29 | For every string, the onboarding check does not flag it exactly when the profile screen's `validateName` accepts it. |
| `OnboardingScreen.FormValid` | screens/Onboarding.js:34 | Defines the `isValid` expression: neither name is flagged and the email check passes; its meaning is stated by the next row. |
| `OnboardingScreen.FormValidIff` | screens/Onboarding.js:34 | The form is valid exactly when neither name is flagged and the email passes the email check. This is the same as both names passing the profile screen's name check. |
| `OnboardingScreen.Payload` | screens/Onboarding.js:81 | The submitted object has exactly the keys first name, last name and email, holding the three inputs. It is well typed. |
| `OnboardingScreen.OnboardingForm.Valid` | screens/Onboarding.js:33-36 | The invariant the effect keeps: `isFormValid` is the validity of the three current inputs. |
| `OnboardingScreen.OnboardingForm.constructor` | screens/Onboarding.js:16-19 | The inputs start empty, and the form starts invalid and in step with its inputs. |
| `OnboardingScreen.OnboardingForm.ChangeFirstName` | screens/Onboarding.js:33-36 | After an edit and its effect, `isFormValid` is the validity of the new inputs. The other inputs are unchanged. |
| `OnboardingScreen.OnboardingForm.ChangeLastName` | screens/Onboarding.js:33-36 | The same as for the first name, for the last-name input. |
| `OnboardingScreen.OnboardingForm.ChangeEmail` | screens/Onboarding.js:33-36 | The same as for the first name, for the email input. |
| `OnboardingScreen.OnboardingForm.Submit` | screens/Onboarding.js:79-82 | `onboard` is called only while the form is valid, and then both names pass the profile screen's check. On a successful write, the profile and the stored record are exactly the three-key object, and onboarding is complete. Otherwise nothing changes. A well-formed provider stays well formed. |
| `Scenarios.FreshInstall` | AuthContext.js:50-65 | A first start on an empty store ends with the state not loading, not onboarded, a null token and the default profile. |
| `Scenarios.RestoreReadFails` | AuthContext.js:62-64 | A start whose read rejects stays in the initial, loading state. |
| `Scenarios.OnboardThenRestart` | AuthContext.js:71-82 | After onboarding and a restart on the same store, the state is onboarded with exactly the three-key profile. It has no phone and no image key. |
| `Scenarios.OnboardWriteFails` | AuthContext.js:79-81 | A rejected onboarding write leaves the state not onboarded, with the default profile and an empty store. |
| `Scenarios.UpdatePhoneNumber` | AuthContext.js:83-92 | Updating only the phone number stores the new number. The three onboarding fields are kept. |
| `Scenarios.LogoutThenRestart` | AuthContext.js:93-101 | After logout, the state is not onboarded but keeps its profile. The next start has the default profile. |
| `Scenarios.LogoutClearFails` | AuthContext.js:98-100 | After a rejected clear, the state is still onboarded, and the next start restores the same profile. |
| `Scenarios.EditAndSaveAfterOnboarding` | screens/Profile.js:58-65 | After onboarding, the profile screen opens on a well-formed copy. An immediate save issues nothing, since there is no phone number. After the phone number is typed in, a save is issued exactly when the names, email and number pass their checks, and a successful one stores the edited copy. The stored record stays well formed. |

## Left out

- Rendering is not modelled: JSX, `StyleSheet` styles, `Alert.alert`
  messages (including the one after a successful update), `console.error`
  logging, and the React hook plumbing (`useContext`, `useReducer`, the
  scheduling of `useEffect`). These are UI concerns.
- The asynchrony is not modelled. Actions are sequential methods, and no two
  of them interleave. So the model cannot show the stale `state.profile` that
  `updateProfile` captures (AuthContext.js:85). It also cannot show what
  happens because `handleSave` does not await `updateProfile`.
- `ProfileScreen.ProfileForm.PickImage` requires a non-empty asset list when
  the pick is not cancelled. The code reads `result.assets[0].uri`
  (screens/Profile.js:52), which throws on an empty list, and the image
  library returns at least one asset for a pick that is not cancelled.
- `ImagePicker.launchImageLibraryAsync` is a foreign call. Only its result
  (cancelled, or a list of asset URIs) is modelled, as an input.
- The internals of AsyncStorage and JSON serialisation are not modelled. The
  store is one optional record, and serialisation is the identity. So a stored
  string that is falsy or parses to `null` cannot occur.
- `validateEmail` comes from `utils`, which is not part of this model. Both
  screens take it as a caller-supplied predicate on strings.
- `NameMatch.FirstNonLetter` does not state that the match is the *first*
  non-letter. Both screens use only whether a match exists.
- `ProfileScreen.EmailField` treats a non-string email value as invalid.
- `!isNaN(number)` uses JavaScript's string-to-number coercion. It is a
  caller-supplied predicate. The only thing assumed about it
  (`AcceptsDigits`) is that it accepts strings of ASCII digits.
- `ProfileScreen.ValidateNumberCharacterised` is a one-directional contract.
  It says that ten-digit strings are accepted, but not exactly which other
  ten-character strings the coercion accepts.
- String lengths are counted in Unicode scalar values, not in UTF-16 code
  units. The two counts differ only for characters outside the Basic
  Multilingual Plane. Such characters are never letters, and they make the
  number coercion fail.
- `ProfileScreen.IsFormValid` and `ProfileScreen.ProfileForm.HandleSave`
  require the first-name, last-name and email keys to be present. The code
  reads `.length` of the names, which throws on an absent key. The model also
  passes the email key to the email check. The requirement is met on the
  app's own paths: the provider invariant `AuthContext.AuthProvider.WellFormed`
  holds from start-up over an empty or well-formed store and every action keeps
  it when given well-typed data; the form invariant
  `ProfileScreen.ProfileForm.Valid` follows from it and every edit keeps it;
  and `Scenarios.EditAndSaveAfterOnboarding` applies the checks to the copy
  opened after onboarding. A caller that passes `onboard` an object without
  these keys is not covered, since the code would then throw in the profile
  screen.
- `null` and `undefined` are not distinguished. For `userToken`, both are
  `None`, and an action's missing `token` is `None` too.
- `RESTORE_TOKEN` and `SIGN_IN` are in the reducer, but no action of the
  provider dispatches them.
- The action methods return nothing, as in the code. A failure is visible
  only as the state and store being unchanged.
- `components/MenuFilters.js` is not modelled. It is a presentational row of
  buttons whose only logic capitalises a label.
- `App.js` is not modelled. It is navigation wiring that picks a screen from
  `isLoading` and `isOnboardingCompleted`.
