/**
 The session logic of the sign-in / sign-up screen.

 The screen's React state (the login/register mode, the logged-in and
 editing flags, the eight form inputs and the cached profile) becomes the
 fields of class App, and so does the on-device key-value store, as a map
 from key to text. The local user database is not part of this model: the
 outcome of each call to it is a parameter of the handler that makes the
 call, and the calls made are recorded in the field dbCalls so that a
 contract can say when none is made. Each awaited store operation is one
 update of the map, and an alert is the value the handler returns.
 */
module Session {
  import opened Validation
  import opened Profiles

  /** The two keys the screen keeps in the key-value store. */
  const IsLoggedInKey := "isLoggedIn"
  const UserProfileKey := "userProfile"

  const ErrorTitle := "Error"
  const SuccessTitle := "Success"
  const FillMessage := "Please fill in all fields"
  const EmailMessage := "Invalid email address"
  const PhoneMessage := "Invalid phone number"

  // ---------------------------------------------------------------------
  // The form and the checks made before any persistence call
  // ---------------------------------------------------------------------

  datatype Form = Form(
    username: string,
    password: string,
    firstName: string,
    lastName: string,
    email: string,
    contactNumber: string,
    address: string,
    profilePicture: string)

  const BlankForm := Form("", "", "", "", "", "", "", "")

  /** The text inputs of the form, one per Form field. */
  datatype Input = UsernameInput | PasswordInput | FirstNameInput | LastNameInput
                 | EmailInput | ContactNumberInput | AddressInput | ProfilePictureInput

  function InputValue(form: Form, i: Input): string {
    match i
    case UsernameInput => form.username
    case PasswordInput => form.password
    case FirstNameInput => form.firstName
    case LastNameInput => form.lastName
    case EmailInput => form.email
    case ContactNumberInput => form.contactNumber
    case AddressInput => form.address
    case ProfilePictureInput => form.profilePicture
  }

  /** The onChangeText setter of input i: that input holds text, the others keep theirs. */
  function Typed(form: Form, i: Input, text: string): (r: Form)
    ensures InputValue(r, i) == text
    ensures forall j :: j != i ==> InputValue(r, j) == InputValue(form, j)
  {
    match i
    case UsernameInput => form.(username := text)
    case PasswordInput => form.(password := text)
    case FirstNameInput => form.(firstName := text)
    case LastNameInput => form.(lastName := text)
    case EmailInput => form.(email := text)
    case ContactNumberInput => form.(contactNumber := text)
    case AddressInput => form.(address := text)
    case ProfilePictureInput => form.(profilePicture := text)
  }

  /**
   The seven inputs the submit handler requires: all but the picture URL.
   The handler asks for them in both modes, although the sign-in view shows
   only the username and password inputs.
   */
  predicate Filled(form: Form) {
    form.username != "" && form.password != "" && form.firstName != "" &&
    form.lastName != "" && form.email != "" && form.contactNumber != "" &&
    form.address != ""
  }

  datatype Check = Pass | Fail(message: string)

  /**
   The guards at the head of the submit handler, in their order: every
   required input filled, then the email check, then the phone check; the
   first that fails decides the message.
   */
  function ValidateSubmit(form: Form): (r: Check)
    ensures r == Fail(FillMessage) <==> !Filled(form)
    ensures r == Fail(EmailMessage) <==> Filled(form) && !EmailShape(form.email)
    ensures r == Fail(PhoneMessage) <==>
      Filled(form) && EmailShape(form.email) &&
      !(|form.contactNumber| == 10 && All(form.contactNumber, IsDigit))
    ensures r == Pass <==>
      Filled(form) && EmailShape(form.email) &&
      |form.contactNumber| == 10 && All(form.contactNumber, IsDigit)
  {
    EmailScanCorrect(form.email);
    PhoneCharacterization(form.contactNumber);
    if !Filled(form) then Fail(FillMessage)
    else if !IsValidEmail(form.email) then Fail(EmailMessage)
    else if !IsValidPhone(form.contactNumber) then Fail(PhoneMessage)
    else Pass
  }

  /** Sign-in is refused while a registration-only input is empty, whatever the credentials. */
  lemma SignInNeedsRegistrationInputs(form: Form)
    requires form.firstName == "" || form.lastName == "" || form.email == "" ||
             form.contactNumber == "" || form.address == ""
    ensures ValidateSubmit(form) == Fail(FillMessage)
  {
  }

  /** The form input that registration copies into profile field f. */
  function InputOf(f: Field): (i: Input)
    ensures i != PasswordInput
  {
    match f
    case Username => UsernameInput
    case FirstName => FirstNameInput
    case LastName => LastNameInput
    case Email => EmailInput
    case ContactNumber => ContactNumberInput
    case Address => AddressInput
    case ProfilePicture => ProfilePictureInput
  }

  /**
   The record registration hands to the database and caches: every profile
   field holds its form input, and the password is not among them.
   */
  function RegistrationRecord(form: Form): (p: Profile)
    ensures forall f :: Get(p, f) == Some(InputValue(form, InputOf(f)))
  {
    Profile(Some(form.username), Some(form.firstName), Some(form.lastName), Some(form.email),
            Some(form.contactNumber), Some(form.address), Some(form.profilePicture))
  }

  // ---------------------------------------------------------------------
  // Reading the store
  // ---------------------------------------------------------------------

  /** The stored flag that makes startup restore the logged-in view. */
  predicate ResumesSession(store: map<string, string>) {
    IsLoggedInKey in store && store[IsLoggedInKey] == "true"
  }

  /**
   The profile state after fetchUserProfile: a missing or empty entry leaves
   it as it was; otherwise it is what the entry decodes to (null included).
   An entry that does not decode leaves it as it was, as the rejected parse
   ends the fetch before it sets anything.
   */
  function Fetched(store: map<string, string>, current: Option<Profile>): Option<Profile> {
    if UserProfileKey in store && store[UserProfileKey] != "" then
      match Decode(store[UserProfileKey])
      case Some(v) => v
      case None => current
    else current
  }

  /** What was last written under the profile key is what the next fetch reads. */
  lemma SavedProfileReadsBack(store: map<string, string>, v: Option<Profile>, current: Option<Profile>)
    ensures Fetched(store[UserProfileKey := Encode(v)], current) == v
  {
    DecodeEncode(v);
  }

  /** Setting the login flag does not change what a fetch reads. */
  lemma FlagDoesNotAffectFetch(store: map<string, string>, text: string, current: Option<Profile>)
    ensures Fetched(store[IsLoggedInKey := text], current) == Fetched(store, current)
  {
  }

  // ---------------------------------------------------------------------
  // The screen
  // ---------------------------------------------------------------------

  datatype Alert = Alert(title: string, message: string)

  /** What loginUser did: found a matching record, found none, or threw. */
  datatype LoginOutcome = Matched | NotMatched | LoginThrew(message: string)

  /** What registerUser did: returned, or threw. */
  datatype RegisterOutcome = Registered | RegisterThrew(message: string)

  /** A call the screen made into the local user database. */
  datatype DbCall = LoginCall(username: string, password: string) | RegisterCall(record: Profile)

  /** Everything App holds, as one value, so that contracts can say what did not change. */
  datatype Snapshot = Snapshot(
    isLogin: bool,
    isLoggedIn: bool,
    isEditing: bool,
    form: Form,
    userProfile: Option<Profile>,
    store: map<string, string>,
    dbCalls: seq<DbCall>)

  class App {
    /** The sign-in mode (true) or the sign-up mode (false) of the form. */
    var isLogin: bool
    var isLoggedIn: bool
    var isEditing: bool
    var form: Form
    /** The cached profile; None is null. */
    var userProfile: Option<Profile>
    /** The on-device key-value store. */
    var store: map<string, string>
    /** The calls made into the user database so far, oldest first. */
    var dbCalls: seq<DbCall>

    function State(): Snapshot
      reads this
    {
      Snapshot(isLogin, isLoggedIn, isEditing, form, userProfile, store, dbCalls)
    }

    /** The screen as first rendered, over whatever the store already holds. */
    constructor (persisted: map<string, string>)
      ensures State() == Snapshot(true, false, false, BlankForm, None, persisted, [])
    {
      isLogin, isLoggedIn, isEditing := true, false, false;
      form := BlankForm;
      userProfile := None;
      store := persisted;
      dbCalls := [];
    }

    /** fetchUserProfile: load the cached profile from the store. */
    method FetchUserProfile()
      modifies this
      ensures State() == old(State()).(userProfile := Fetched(old(store), old(userProfile)))
    {
      if UserProfileKey in store && store[UserProfileKey] != "" {
        match Decode(store[UserProfileKey])
        case Some(v) => userProfile := v;
        case None =>
      }
    }

    /** checkLoginStatus, run once at startup: restore the session if the flag says so. */
    method CheckLoginStatus()
      modifies this
      ensures State() ==
        if ResumesSession(old(store))
        then old(State()).(isLoggedIn := true, userProfile := Fetched(old(store), old(userProfile)))
        else old(State())
    {
      if IsLoggedInKey in store && store[IsLoggedInKey] == "true" {
        isLoggedIn := true;
        FetchUserProfile();
      }
    }

    /** Typing into input i. */
    method Type(i: Input, text: string)
      modifies this
      ensures State() == old(State()).(form := Typed(old(form), i, text))
    {
      form := Typed(form, i, text);
    }

    /** The link under the submit button: switch between sign-in and sign-up. */
    method ToggleMode()
      modifies this
      ensures State() == old(State()).(isLogin := !old(isLogin))
    {
      isLogin := !isLogin;
    }

    /**
     handleSubmit. A failed check alerts its message and changes nothing,
     with no call to the database or the store. Otherwise, in sign-in mode,
     loginUser is called with the credentials, and a match sets the stored
     flag, the logged-in state and reloads the cached profile from the store
     without writing it. In sign-up mode registerUser is called with the
     record, and on return the record is stored under the profile key and the
     form switches to sign-in mode; the session is not started. A call that
     throws alerts the error's message and changes nothing else.
     */
    method Submit(login: LoginOutcome, register: RegisterOutcome) returns (alert: Alert)
      modifies this
      ensures form == old(form) && isEditing == old(isEditing)
      ensures ValidateSubmit(form).Fail? ==>
        alert == Alert(ErrorTitle, ValidateSubmit(form).message) && State() == old(State())
      ensures ValidateSubmit(form).Pass? && old(isLogin) ==>
        dbCalls == old(dbCalls) + [LoginCall(form.username, form.password)] &&
        State() == (match login
          case Matched =>
            old(State()).(isLoggedIn := true,
                          store := old(store)[IsLoggedInKey := "true"],
                          userProfile := Fetched(old(store), old(userProfile)),
                          dbCalls := dbCalls)
          case _ => old(State()).(dbCalls := dbCalls)) &&
        alert == (match login
          case Matched => Alert(SuccessTitle, "Logged in successfully")
          case NotMatched => Alert(ErrorTitle, "Invalid credentials")
          case LoginThrew(m) => Alert(ErrorTitle, m))
      ensures ValidateSubmit(form).Pass? && !old(isLogin) ==>
        dbCalls == old(dbCalls) + [RegisterCall(RegistrationRecord(form))] &&
        State() == (match register
          case Registered =>
            old(State()).(isLogin := true,
                          store := old(store)[UserProfileKey := Encode(Some(RegistrationRecord(form)))],
                          dbCalls := dbCalls)
          case RegisterThrew(_) => old(State()).(dbCalls := dbCalls)) &&
        alert == (match register
          case Registered => Alert(SuccessTitle, "Registration successful")
          case RegisterThrew(m) => Alert(ErrorTitle, m))
    {
      var check := ValidateSubmit(form);
      if check.Fail? {
        return Alert(ErrorTitle, check.message);
      }
      if isLogin {
        dbCalls := dbCalls + [LoginCall(form.username, form.password)];
        match login
        case Matched =>
          store := store[IsLoggedInKey := "true"];
          isLoggedIn := true;
          FlagDoesNotAffectFetch(old(store), "true", userProfile);
          FetchUserProfile();
          alert := Alert(SuccessTitle, "Logged in successfully");
          assert State() == old(State()).(isLoggedIn := true, store := old(store)[IsLoggedInKey := "true"],
                                          userProfile := Fetched(old(store), old(userProfile)), dbCalls := dbCalls);
        case NotMatched =>
          alert := Alert(ErrorTitle, "Invalid credentials");
        case LoginThrew(m) =>
          alert := Alert(ErrorTitle, m);
      } else {
        var record := RegistrationRecord(form);
        dbCalls := dbCalls + [RegisterCall(record)];
        match register
        case Registered =>
          store := store[UserProfileKey := Encode(Some(record))];
          alert := Alert(SuccessTitle, "Registration successful");
          isLogin := true;
          assert State() == old(State()).(isLogin := true, store := old(store)[UserProfileKey := Encode(Some(record))],
                                          dbCalls := dbCalls);
        case RegisterThrew(m) =>
          alert := Alert(ErrorTitle, m);
      }
    }

    /**
     handleLogout: both keys leave the store, the session ends, and the
     credentials and the cached profile are cleared. The other inputs and the
     mode stay as they were.
     */
    method Logout()
      modifies this
      ensures State() == old(State()).(
        isLoggedIn := false,
        form := old(form).(username := "", password := ""),
        userProfile := None,
        store := old(store) - {IsLoggedInKey, UserProfileKey})
      ensures !ResumesSession(store) && UserProfileKey !in store
      ensures forall k :: k in old(store) && k != IsLoggedInKey && k != UserProfileKey ==>
        k in store && store[k] == old(store)[k]
    {
      store := store - {IsLoggedInKey};
      store := store - {UserProfileKey};
      isLoggedIn := false;
      form := form.(username := "", password := "");
      userProfile := None;
    }

    /** The Edit Profile button. */
    method StartEditing()
      modifies this
      ensures State() == old(State()).(isEditing := true)
    {
      isEditing := true;
    }

    /**
     One of the six profile inputs of the edit view (there is none for the
     username): `{ ...userProfile, field: text }`.
     */
    method EditProfile(f: Field, text: string)
      requires f != Username
      modifies this
      ensures State() == old(State()).(userProfile := Some(With(old(userProfile).GetOr(Blank), f, text)))
      ensures Get(userProfile.value, f) == Some(text)
      ensures forall g :: g != f ==> Get(userProfile.value, g) == Get(old(userProfile).GetOr(Blank), g)
    {
      userProfile := Some(With(userProfile.GetOr(Blank), f, text));
    }

    /**
     handleSaveProfile: write the cached profile under its key and leave the
     edit view. When the write fails (writeFails) the alert says so and
     nothing changes. The database is never called.
     */
    method SaveProfile(writeFails: bool) returns (alert: Alert)
      modifies this
      ensures !writeFails ==>
        State() == old(State()).(isEditing := false, store := old(store)[UserProfileKey := Encode(old(userProfile))]) &&
        alert == Alert(SuccessTitle, "Profile updated")
      ensures !writeFails ==> forall current :: Fetched(store, current) == userProfile
      ensures writeFails ==> State() == old(State()) && alert == Alert(ErrorTitle, "Failed to save profile")
    {
      if writeFails {
        return Alert(ErrorTitle, "Failed to save profile");
      }
      store := store[UserProfileKey := Encode(userProfile)];
      isEditing := false;
      alert := Alert(SuccessTitle, "Profile updated");
      forall current ensures Fetched(store, current) == userProfile {
        SavedProfileReadsBack(old(store), userProfile, current);
      }
    }
  }

  /** After logging out, a fresh start over the same store shows the signed-out view. */
  method RestartAfterLogout(app: App) returns (next: App)
    modifies app
    ensures fresh(next)
    ensures next.store == app.store
    ensures !next.isLoggedIn && next.userProfile == None && next.isLogin
  {
    app.Logout();
    next := new App(app.store);
    next.CheckLoginStatus();
  }

  /** An edited and saved profile field is what the next fetch from the store reads. */
  method EditSaveFetch(app: App, f: Field, text: string)
    requires f != Username
    modifies app
    ensures app.userProfile.Some? && Get(app.userProfile.value, f) == Some(text)
    ensures forall g :: g != f ==> Get(app.userProfile.value, g) == Get(old(app.userProfile).GetOr(Blank), g)
    ensures !app.isEditing
    ensures app.dbCalls == old(app.dbCalls)
  {
    app.EditProfile(f, text);
    var _ := app.SaveProfile(false);
    app.FetchUserProfile();
  }
}
