/** The onboarding screen: its name check (which answers "is this name
    invalid?"), the form-validity flag that an effect keeps in step with the
    three inputs, and the submit button that hands the three fields to the
    provider's `onboard` action. */
module OnboardingScreen {
  import opened Wrappers
  import opened NameMatch
  import opened AuthContext
  import ProfileScreen

  /** What this screen's `validateName` returns: the match object of the
      non-letter search, `null` when the search finds nothing, or the literal
      `true` for an empty name. */
  datatype NameFlag = RegexMatch(index: nat) | RegexNull | LiteralTrue {
    /** JavaScript truthiness: a match object and `true` are truthy, `null` is
        not. */
    predicate Truthy() {
      !RegexNull?
    }
  }

  /** `validateName`: truthy exactly when the name is to be rejected — it is
      empty, or it holds a character outside `[a-zA-Z]`. */
  function ValidateName(name: string): (r: NameFlag)
    ensures |name| == 0 ==> r.Truthy()
    ensures |name| > 0 ==> (r.Truthy() <==> !AllLetters(name))
    ensures r.RegexMatch? ==> r.index < |name| && !IsLetter(name[r.index])
  {
    if |name| > 0 then
      match FirstNonLetter(name)
      case Some(i) => RegexMatch(i)
      case None => RegexNull
    else
      LiteralTrue
  }

  /** The two screens' name checks agree: a name is flagged here exactly when
      the profile screen rejects it. */
  lemma ValidatorsAgree(name: string)
    ensures !ValidateName(name).Truthy() == ProfileScreen.ValidateName(name)
  {
  }

  /** The `isValid` expression: neither name is flagged and the email check
      passes. */
  function FormValid(firstName: string, lastName: string, email: string,
                     validateEmail: string -> bool): bool
  {
    !ValidateName(firstName).Truthy() && !ValidateName(lastName).Truthy() && validateEmail(email)
  }

  /** The onboarding form is valid exactly when both names are non-empty
      strings of letters and the email passes the email check — the same name
      rule as the profile screen's. */
  lemma FormValidIff(firstName: string, lastName: string, email: string,
                     validateEmail: string -> bool)
    ensures FormValid(firstName, lastName, email, validateEmail) <==>
      && |firstName| > 0 && AllLetters(firstName)
      && |lastName| > 0 && AllLetters(lastName)
      && validateEmail(email)
    ensures FormValid(firstName, lastName, email, validateEmail) <==>
      && ProfileScreen.ValidateName(firstName)
      && ProfileScreen.ValidateName(lastName)
      && validateEmail(email)
  {
  }

  /** The object the submit button passes to `onboard`: the three inputs and no
      other key. */
  function Payload(firstName: string, lastName: string, email: string): (p: Profile)
    ensures p.Keys == {FirstName, LastName, Email}
    ensures p[FirstName] == Str(firstName) && p[LastName] == Str(lastName) && p[Email] == Str(email)
    ensures WellFormedProfile(p)
  {
    map[FirstName := Str(firstName), LastName := Str(lastName), Email := Str(email)]
  }

  /** The screen's three inputs and the `isFormValid` state variable. */
  class OnboardingForm {
    var firstName: string
    var lastName: string
    var email: string
    var isFormValid: bool
    const validateEmail: string -> bool

    /** The effect has run on the current inputs: the flag is the validity of
        what is typed in. */
    predicate Valid()
      reads this
    {
      isFormValid == FormValid(firstName, lastName, email, validateEmail)
    }

    /** Mounting: the three inputs start empty, and the effect that runs on
        mount leaves the form invalid. */
    constructor (validateEmail: string -> bool)
      ensures this.validateEmail == validateEmail
      ensures firstName == "" && lastName == "" && email == ""
      ensures Valid() && !isFormValid
    {
      this.validateEmail := validateEmail;
      firstName, lastName, email := "", "", "";
      isFormValid := false;
      isFormValid := FormValid("", "", "", validateEmail);
    }

    /** Typing into the first-name input, followed by the effect. */
    method ChangeFirstName(v: string)
      requires Valid()
      modifies this
      ensures Valid()
      ensures firstName == v && lastName == old(lastName) && email == old(email)
    {
      firstName := v;
      isFormValid := FormValid(firstName, lastName, email, validateEmail);
    }

    /** Typing into the last-name input, followed by the effect. */
    method ChangeLastName(v: string)
      requires Valid()
      modifies this
      ensures Valid()
      ensures lastName == v && firstName == old(firstName) && email == old(email)
    {
      lastName := v;
      isFormValid := FormValid(firstName, lastName, email, validateEmail);
    }

    /** Typing into the email input, followed by the effect. */
    method ChangeEmail(v: string)
      requires Valid()
      modifies this
      ensures Valid()
      ensures email == v && firstName == old(firstName) && lastName == old(lastName)
    {
      email := v;
      isFormValid := FormValid(firstName, lastName, email, validateEmail);
    }

    /** Pressing Submit: the button is disabled while the form is invalid, so
        `onboard` is called only when the form is valid, with exactly the three
        inputs. `writeFails` is the outcome of the store write it makes. */
    method Submit(auth: AuthProvider, writeFails: bool) returns (submitted: bool)
      requires Valid()
      modifies auth, auth.store
      ensures submitted == isFormValid
      ensures submitted ==> ProfileScreen.ValidateName(firstName) && ProfileScreen.ValidateName(lastName)
                            && validateEmail(email)
      ensures !submitted || writeFails ==>
                auth.state == old(auth.state) && auth.store.profile == old(auth.store.profile)
      ensures submitted && !writeFails ==>
                auth.state == old(auth.state).(isLoading := false, isOnboardingCompleted := true,
                                               profile := Payload(firstName, lastName, email))
                && auth.store.profile == Some(Payload(firstName, lastName, email))
      ensures old(auth.WellFormed()) ==> auth.WellFormed()
    {
      submitted := isFormValid;
      if submitted {
        auth.Onboard(Payload(firstName, lastName, email), writeFails);
      }
    }
  }
}
