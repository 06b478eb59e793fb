/** Sign-up and sign-in (src/components/AuthScreen.tsx): a mobile field that
    keeps at most ten digits, a chain of sign-up guards, an appended account,
    and a login that finds the first account with the given mobile and
    password and hands on the user without the password. */
module AuthScreen {
  import opened Wrappers
  import opened Domain
  import opened Seqs
  import opened Storage

  const MobileLength := 10
  const MinPasswordLength := 6

  datatype AuthForm = AuthForm(fullName: string, mobile: string, password: string, role: Role, address: string)

  /** The form as first shown: empty fields, role consumer. */
  const EmptyAuthForm := AuthForm("", "", "", Consumer, "")

  /** A detected position: the source picks one of eight cities at random,
      which is a parameter here. */
  datatype DetectedLocation = DetectedLocation(latitude: real, longitude: real, town: string)

  predicate IsDigit(c: char)
  {
    '0' <= c <= '9'
  }

  /** The mobile input's change handler: drop every non-digit, keep the first
      ten. */
  function SanitizeMobile(input: string): (r: string)
    ensures |r| <= MobileLength
    ensures forall i :: 0 <= i < |r| ==> IsDigit(r[i])
    ensures r <= Filter(input, IsDigit)
    ensures |r| == if |Filter(input, IsDigit)| < MobileLength then |Filter(input, IsDigit)| else MobileLength
  {
    Take(Filter(input, IsDigit), MobileLength)
  }

  /** Sanitising twice is sanitising once. */
  lemma SanitizeMobileIdempotent(input: string)
    ensures SanitizeMobile(SanitizeMobile(input)) == SanitizeMobile(input)
  {
    var once := SanitizeMobile(input);
    FilterKeepsAll(once, IsDigit);
  }

  /** The corrected mobile field: sanitised while signing up only, so that
      an account id that is not a phone number (the seeded administrator's)
      can be typed at login. As written the field is sanitised in both modes
      (`AuthScreen.SetMobile`). */
  function MobileFieldValue(isLogin: bool, input: string): (r: string)
    ensures isLogin ==> r == input
    ensures !isLogin ==> |r| <= MobileLength && forall i :: 0 <= i < |r| ==> IsDigit(r[i])
  {
    if isLogin then input else SanitizeMobile(input)
  }

  datatype SignupError = MissingFields | InvalidMobile | ShortPassword

  /** The sign-up guards in order: a required field empty or no location;
      a mobile shorter than ten; a password shorter than six. */
  function ValidateSignup(form: AuthForm, location: Option<DetectedLocation>): (r: Option<SignupError>)
    ensures r == Some(MissingFields) <==>
      form.fullName == "" || form.mobile == "" || form.password == "" || location.None?
    ensures r == Some(InvalidMobile) <==> r != Some(MissingFields) && |form.mobile| < MobileLength
    ensures r == Some(ShortPassword) <==>
      r != Some(MissingFields) && |form.mobile| >= MobileLength && |form.password| < MinPasswordLength
    ensures r == None <==>
      form.fullName != "" && location.Some? &&
      |form.mobile| >= MobileLength && |form.password| >= MinPasswordLength
  {
    if form.fullName == "" || form.mobile == "" || form.password == "" || location.None? then Some(MissingFields)
    else if |form.mobile| < MobileLength then Some(InvalidMobile)
    else if |form.password| < MinPasswordLength then Some(ShortPassword)
    else None
  }

  /** A mobile typed through the field and accepted by sign-up is exactly
      ten digits. */
  lemma AcceptedMobileIsTenDigits(input: string, form: AuthForm, location: Option<DetectedLocation>)
    requires form.mobile == SanitizeMobile(input)
    requires ValidateSignup(form, location) == None
    ensures |form.mobile| == MobileLength
    ensures forall i :: 0 <= i < |form.mobile| ==> IsDigit(form.mobile[i])
  {
  }

  /** The account a successful sign-up stores. */
  function NewAccount(form: AuthForm, location: DetectedLocation, id: string, now: int): (a: Account)
    ensures a.password == form.password && a.profile.role == form.role
    ensures a.profile.mobile == form.mobile && a.profile.fullName == form.fullName
    ensures a.profile.location ==
      Location(location.latitude, location.longitude, form.address, location.town)
  {
    Account(User(id, form.fullName, form.mobile, form.role,
                 Location(location.latitude, location.longitude, form.address, location.town), now),
            form.password)
  }

  predicate Matches(a: Account, mobile: string, password: string)
  {
    a.profile.mobile == mobile && a.password == password
  }

  /** The position of the first stored account whose mobile and password both
      match exactly. */
  function FindAccount(users: seq<Account>, mobile: string, password: string): (r: Option<nat>)
    ensures r.Some? ==> r.value < |users| && Matches(users[r.value], mobile, password)
    ensures r.Some? ==> forall j :: 0 <= j < r.value ==> !Matches(users[j], mobile, password)
    ensures r.None? <==> forall j :: 0 <= j < |users| ==> !Matches(users[j], mobile, password)
    decreases |users|
  {
    if users == [] then None
    else if Matches(users[0], mobile, password) then Some(0)
    else
      match FindAccount(users[1..], mobile, password)
      case None => None
      case Some(i) => Some(i + 1)
  }

  /** The user handed to the application on login: the profile of the first
      matching account, without its password. */
  function Login(users: seq<Account>, mobile: string, password: string): (r: Option<User>)
    ensures r.Some? <==> exists j :: 0 <= j < |users| && Matches(users[j], mobile, password)
    ensures r.Some? ==>
      exists j :: 0 <= j < |users| && Matches(users[j], mobile, password) && r.value == users[j].profile &&
                  forall k :: 0 <= k < j ==> !Matches(users[k], mobile, password)
  {
    match FindAccount(users, mobile, password)
    case None => None
    case Some(i) => Some(users[i].profile)
  }

  /** Sign-up makes no duplicate check: a second account with the mobile and
      password of an earlier one is stored, but login keeps returning the
      earlier one. */
  lemma {:induction false} LaterDuplicateIsShadowed(users: seq<Account>, a: Account)
    requires FindAccount(users, a.profile.mobile, a.password).Some?
    ensures FindAccount(users + [a], a.profile.mobile, a.password) == FindAccount(users, a.profile.mobile, a.password)
    decreases |users|
  {
    if !Matches(users[0], a.profile.mobile, a.password) {
      assert (users + [a])[1..] == users[1..] + [a];
      LaterDuplicateIsShadowed(users[1..], a);
    }
  }

  /** A fresh account signs in as itself. */
  lemma {:induction false} NewAccountCanLogIn(users: seq<Account>, a: Account)
    requires FindAccount(users, a.profile.mobile, a.password).None?
    ensures Login(users + [a], a.profile.mobile, a.password) == Some(a.profile)
    decreases |users|
  {
    if users != [] {
      assert (users + [a])[1..] == users[1..] + [a];
      NewAccountCanLogIn(users[1..], a);
    }
  }

  datatype AuthError = InvalidCredentials | Signup(reason: SignupError)

  class AuthScreen {
    const store: Store
    var isLogin: bool
    var form: AuthForm
    var location: Option<DetectedLocation>

    constructor (store: Store)
      ensures this.store == store && isLogin && form == EmptyAuthForm && location == None
    {
      this.store := store;
      isLogin, form, location := true, EmptyAuthForm, None;
    }

    /** Typing in the mobile field: in either mode it keeps the first ten
        digits typed and nothing else. */
    method SetMobile(input: string)
      modifies this`form
      ensures form == old(form).(mobile := SanitizeMobile(input))
      ensures |form.mobile| <= MobileLength
      ensures forall i :: 0 <= i < |form.mobile| ==> IsDigit(form.mobile[i])
    {
      form := form.(mobile := SanitizeMobile(input));
    }

    /** Typing in the full-name field. */
    method SetFullName(input: string)
      modifies this`form
      ensures form == old(form).(fullName := input)
    {
      form := form.(fullName := input);
    }

    /** Typing in the password field. */
    method SetPassword(input: string)
      modifies this`form
      ensures form == old(form).(password := input)
    {
      form := form.(password := input);
    }

    /** Choosing farmer or consumer in the role selector. */
    method SetRole(role: Role)
      modifies this`form
      ensures form == old(form).(role := role)
    {
      form := form.(role := role);
    }

    /** Typing in the address field, which also overrides a detected address. */
    method SetAddress(input: string)
      modifies this`form
      ensures form == old(form).(address := input)
    {
      form := form.(address := input);
    }

    /** The sign-in / sign-up switch. The effect on the mode runs when the
        mode changes, and on a change to sign-up it detects a location;
        `detected` stands for the randomly picked place. */
    method SetIsLogin(b: bool, detected: DetectedLocation)
      modifies this`isLogin, this`location, this`form
      ensures isLogin == b
      ensures old(isLogin) && !b ==>
        location == Some(detected) && form == old(form).(address := detected.town + ", India")
      ensures !(old(isLogin) && !b) ==> location == old(location) && form == old(form)
    {
      var changedToSignup := isLogin && !b;
      isLogin := b;
      if changedToSignup {
        DetectLocation(detected);
      }
    }

    /** `detectLocation`: records the place and fills the address. */
    method DetectLocation(detected: DetectedLocation)
      modifies this`location, this`form
      ensures location == Some(detected)
      ensures form == old(form).(address := detected.town + ", India")
    {
      location := Some(detected);
      form := form.(address := detected.town + ", India");
    }

    /** `handleSubmit`: log in against the stored accounts, or validate the
        sign-up form and append the new account. Either way a success yields
        the user without the password. */
    method HandleSubmit(id: string, now: int) returns (r: Result<User, AuthError>)
      modifies store`users
      ensures isLogin ==> store.users == old(store.users)
      ensures isLogin ==> (r.Ok? <==> Login(store.users, form.mobile, form.password).Some?)
      ensures isLogin && r.Ok? ==> Some(r.value) == Login(store.users, form.mobile, form.password)
      ensures isLogin && r.Err? ==> r.error == InvalidCredentials
      ensures !isLogin && ValidateSignup(form, location).Some? ==>
        r == Err(Signup(ValidateSignup(form, location).value)) && store.users == old(store.users)
      ensures !isLogin && ValidateSignup(form, location).None? ==>
        var a := NewAccount(form, location.value, id, now);
        store.users == old(store.users) + [a] && r == Ok(a.profile)
    {
      if isLogin {
        match Login(store.users, form.mobile, form.password)
        case None => r := Err(InvalidCredentials);
        case Some(u) => r := Ok(u);
      } else {
        match ValidateSignup(form, location)
        case Some(e) => r := Err(Signup(e));
        case None =>
          var a := NewAccount(form, location.value, id, now);
          store.users := store.users + [a];
          r := Ok(a.profile);
      }
    }
  }
}
