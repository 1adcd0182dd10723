/** The profile screen: the field checks behind its "Save changes" button, and
    the local copy of the profile that its inputs edit before it is saved
    through the provider's `updateProfile` action. */
module ProfileScreen {
  import opened Wrappers
  import opened NameMatch
  import opened AuthContext

  /** `validateName`: a non-empty name in which the search for a character
      outside `[a-zA-Z]` finds nothing. */
  function ValidateName(name: string): (ok: bool)
    ensures ok <==> |name| > 0 && AllLetters(name)
  {
    |name| > 0 && FirstNonLetter(name).None?
  }

  /** Strings made of ASCII digits only. */
  predicate AllDigits(s: string) {
    forall i :: 0 <= i < |s| ==> '0' <= s[i] <= '9'
  }

  /** What a caller-supplied stand-in for `!isNaN(s)` must at least accept: a
      string of ASCII digits converts to a number. */
  ghost predicate AcceptsDigits(isNumeric: string -> bool) {
    forall s :: AllDigits(s) ==> isNumeric(s)
  }

  /** `validateNumber`: the string converts to a number and has exactly ten
      characters. `isNumeric` stands for `!isNaN(number)`. */
  function ValidateNumber(number: string, isNumeric: string -> bool): bool {
    isNumeric(number) && |number| == 10
  }

  /** The number check rejects every length other than ten, and accepts every
      ten-digit string. */
  lemma ValidateNumberCharacterised(number: string, isNumeric: string -> bool)
    requires AcceptsDigits(isNumeric)
    ensures |number| != 10 ==> !ValidateNumber(number, isNumeric)
    ensures |number| == 10 && AllDigits(number) ==> ValidateNumber(number, isNumeric)
  {
  }

  /** The name check applied to a value that is present: a boolean has no
      `length`, so `undefined > 0` makes it invalid. */
  function NameField(v: Value): bool {
    match v
    case Str(s) => ValidateName(s)
    case Flag(_) => false
  }

  /** The email check applied to the email key's value; a non-string email is
      taken as invalid. */
  function EmailField(v: Value, validateEmail: string -> bool): bool {
    match v
    case Str(s) => validateEmail(s)
    case Flag(_) => false
  }

  /** The number check applied to the phone key: an absent key is `undefined`,
      for which `isNaN` holds, and a boolean has no `length`; both are
      invalid. */
  function NumberField(v: Option<Value>, isNumeric: string -> bool): bool {
    match v
    case Some(Str(s)) => ValidateNumber(s, isNumeric)
    case _ => false
  }

  /** `getIsFormValid`: both name checks, the email check and the number check,
      in that order. The name checks read `.length` of the first and last name,
      so those keys must be present; the email check is outside the model and
      is given the email key's value. */
  function IsFormValid(p: Profile, validateEmail: string -> bool, isNumeric: string -> bool): bool
    requires HasIdentity(p)
  {
    && NameField(p[FirstName])
    && NameField(p[LastName])
    && EmailField(p[Email], validateEmail)
    && NumberField(if PhoneNumber in p then Some(p[PhoneNumber]) else None, isNumeric)
  }

  /** The form is valid exactly when both names are non-empty strings of
      letters, the email passes the email check and the phone number is a
      ten-character string that passes the numeric check. */
  lemma IsFormValidIff(p: Profile, validateEmail: string -> bool, isNumeric: string -> bool)
    requires HasIdentity(p)
    ensures IsFormValid(p, validateEmail, isNumeric) <==>
      && p[FirstName].Str? && |p[FirstName].s| > 0 && AllLetters(p[FirstName].s)
      && p[LastName].Str? && |p[LastName].s| > 0 && AllLetters(p[LastName].s)
      && p[Email].Str? && validateEmail(p[Email].s)
      && PhoneNumber in p && p[PhoneNumber].Str? && |p[PhoneNumber].s| == 10
      && isNumeric(p[PhoneNumber].s)
  {
  }

  /** A profile the onboarding screen submitted has no phone number, so the
      profile form stays invalid until one is typed in. */
  lemma NoPhoneNumberMeansInvalid(p: Profile, validateEmail: string -> bool, isNumeric: string -> bool)
    requires HasIdentity(p) && PhoneNumber !in p
    ensures !IsFormValid(p, validateEmail, isNumeric)
  {
  }

  /** What the image library hands back: whether the pick was cancelled, and
      the URIs of the chosen assets. */
  datatype ImagePickerResult = ImagePickerResult(canceled: bool, assetUris: seq<string>)

  /** The screen's local copy of the profile and the context it saves into. */
  class ProfileForm {
    var localProfile: Profile
    const auth: AuthProvider
    const validateEmail: string -> bool
    const isNumeric: string -> bool

    /** The local copy is well formed: the identity keys the form checks read
        are present, and every key holds the kind of value its input gives. */
    predicate Valid()
      reads this
    {
      WellFormedProfile(localProfile)
    }

    /** `useState(profile)`: the local copy starts as the context's profile. */
    constructor (auth: AuthProvider, validateEmail: string -> bool, isNumeric: string -> bool)
      ensures this.auth == auth && this.validateEmail == validateEmail && this.isNumeric == isNumeric
      ensures localProfile == auth.state.profile
      ensures WellFormedProfile(auth.state.profile) ==> Valid()
    {
      this.auth := auth;
      this.validateEmail := validateEmail;
      this.isNumeric := isNumeric;
      localProfile := auth.state.profile;
    }

    /** `handleChange(key, value)`: key `key` now holds `value`; every other key
        is present and holds what it held before exactly when it did before. */
    method HandleChange(key: Field, value: Value)
      modifies this
      ensures key in localProfile && localProfile[key] == value
      ensures forall f :: f != key ==> (f in localProfile <==> f in old(localProfile))
      ensures forall f :: f != key && f in old(localProfile) ==> localProfile[f] == old(localProfile)[f]
      ensures old(HasIdentity(localProfile)) ==> HasIdentity(localProfile)
      ensures old(Valid()) && HasKind(value, KindOf(key)) ==> Valid()
    {
      localProfile := localProfile[key := value];
    }

    /** `removeImage`: the image becomes the empty string and nothing else
        changes. */
    method RemoveImage()
      modifies this
      ensures localProfile == old(localProfile)[Image := Str("")]
      ensures old(Valid()) ==> Valid()
    {
      HandleChange(Image, Str(""));
    }

    /** The result handling of `pickImage`: a cancelled pick leaves the profile
        alone, any other sets the image to the first asset's URI (the library
        returns at least one asset when the pick is not cancelled). */
    method PickImage(result: ImagePickerResult)
      requires result.canceled || |result.assetUris| > 0
      modifies this
      ensures result.canceled ==> localProfile == old(localProfile)
      ensures !result.canceled ==> localProfile == old(localProfile)[Image := Str(result.assetUris[0])]
      ensures old(Valid()) ==> Valid()
    {
      if !result.canceled {
        HandleChange(Image, Str(result.assetUris[0]));
      }
    }

    /** "Discard changes": the local copy is reset to the context's profile. */
    method Discard()
      modifies this
      ensures localProfile == auth.state.profile
      ensures WellFormedProfile(auth.state.profile) ==> Valid()
    {
      localProfile := auth.state.profile;
    }

    /** `getIsFormValid` on the local copy. */
    function GetIsFormValid(): bool
      reads this
      requires HasIdentity(localProfile)
    {
      IsFormValid(localProfile, validateEmail, isNumeric)
    }

    /** `handleSave`: `updateProfile(localProfile)` is issued exactly when the
        form is valid; otherwise neither the context nor the store changes.
        `writeFails` is the outcome of the store write that the action makes.
        The local copy starts as the context profile and only gains keys, so a
        successful save installs exactly the local copy. */
    method HandleSave(writeFails: bool) returns (issued: bool)
      requires HasIdentity(localProfile)
      modifies auth, auth.store
      ensures issued == IsFormValid(localProfile, validateEmail, isNumeric)
      ensures !issued || writeFails ==>
                auth.state == old(auth.state) && auth.store.profile == old(auth.store.profile)
      ensures issued && !writeFails ==>
                auth.state == old(auth.state).(profile := Merge(old(auth.state.profile), localProfile))
                && auth.Consistent()
      ensures issued && !writeFails && old(auth.state.profile).Keys <= localProfile.Keys ==>
                auth.state.profile == localProfile
      ensures old(auth.WellFormed()) && Conforms(localProfile) ==> auth.WellFormed()
    {
      issued := GetIsFormValid();
      if issued {
        auth.UpdateProfile(localProfile, writeFails);
      }
    }
  }
}
