/** The login/signup page: its form, the field-change handler and the
    submit handler, whose validation runs before any call to the identity
    provider. */
module Login {
  import opened JsNumber
  import opened Records
  import opened Effects

  datatype LoginForm = LoginForm(
    email: string,
    password: string,
    confirmPassword: string,
    name: string,
    category: string,
    targetTime: JsInt,
    age: JsInt,
    gender: string)

  /** The form a fresh page shows. */
  const InitialForm: LoginForm :=
    LoginForm("", "", "", "", "Open", Int(60), Int(30), "male")

  datatype Field = Email | Password | ConfirmPassword | Name | Category | TargetTime | Age | Gender

  datatype FieldValue = Text(text: string) | Number(number: JsInt)

  function Get(f: LoginForm, k: Field): FieldValue {
    match k
    case Email => Text(f.email)
    case Password => Text(f.password)
    case ConfirmPassword => Text(f.confirmPassword)
    case Name => Text(f.name)
    case Category => Text(f.category)
    case TargetTime => Number(f.targetTime)
    case Age => Number(f.age)
    case Gender => Text(f.gender)
  }

  /** The change handler: the two numeric fields take `parseInt` of the
      input, every other field the raw text, and nothing else moves. */
  function HandleChange(f: LoginForm, k: Field, value: string): (r: LoginForm)
    ensures k == TargetTime || k == Age ==> Get(r, k) == Number(ParseInt(value))
    ensures k != TargetTime && k != Age ==> Get(r, k) == Text(value)
    ensures forall k' :: k' != k ==> Get(r, k') == Get(f, k')
  {
    match k
    case Email => f.(email := value)
    case Password => f.(password := value)
    case ConfirmPassword => f.(confirmPassword := value)
    case Name => f.(name := value)
    case Category => f.(category := value)
    case TargetTime => f.(targetTime := ParseInt(value))
    case Age => f.(age := ParseInt(value))
    case Gender => f.(gender := value)
  }

  /** JavaScript's `length` of a string: UTF-16 code units, so a character
      outside the Basic Multilingual Plane counts twice. */
  function Utf16Length(s: string): (n: nat)
    ensures |s| <= n <= 2 * |s|
    ensures (forall i :: 0 <= i < |s| ==> s[i] as int < 0x10000) ==> n == |s|
  {
    if s == [] then 0
    else (if s[0] as int < 0x10000 then 1 else 2) + Utf16Length(s[1..])
  }

  /** The profile document a successful signup writes. */
  function Profile(f: LoginForm, createdAt: string): UserDoc {
    UserDoc(f.name, f.email, f.category, f.targetTime, f.age, f.gender, createdAt)
  }

  /** The body of the `try` block in signup mode. */
  function SignupBody(f: LoginForm, createdAt: string, auth: AuthReply, store: StoreReply): Trace {
    if f.password != f.confirmPassword then
      [Alert(PasswordMismatch), SetBusy(false)]
    else if f.name == "" || Utf16Length(f.password) < 6 then
      [Alert(FillAllFields), SetBusy(false)]
    else
      [CreateUser(f.email, f.password)] + AfterCreate(f, createdAt, auth, store)
  }

  /** What follows the account-creation call. */
  function AfterCreate(f: LoginForm, createdAt: string, auth: AuthReply, store: StoreReply): Trace {
    match auth
    case AuthRejected(m) => [Alert(ErrorDetail("Error: " + m))]
    case Authenticated(uid) => [WriteUserDoc(uid, Profile(f, createdAt))] + AfterProfile(store)
  }

  /** What follows the profile write. */
  function AfterProfile(store: StoreReply): Trace {
    match store
    case StoreRejected(m) => [Alert(ErrorDetail("Error: " + m))]
    case Stored => [Alert(AccountCreated), Navigate(DashboardRoute)]
  }

  /** The body of the `try` block in login mode. */
  function LoginBody(f: LoginForm, auth: AuthReply): Trace {
    if f.email == "" || f.password == "" then
      [Alert(FillAllFields), SetBusy(false)]
    else
      [SignIn(f.email, f.password)] + AfterSignIn(auth)
  }

  /** What follows the sign-in call. */
  function AfterSignIn(auth: AuthReply): Trace {
    match auth
    case AuthRejected(m) => [Alert(ErrorDetail("Error: " + m))]
    case Authenticated(_) => [Alert(LoginSuccess), Navigate(DashboardRoute)]
  }

  /** The submit handler: set the busy flag, run the mode's checks and calls
      (a rejected call lands in the `catch`), then clear the flag in the
      `finally`, which also runs after an early `return`. `createdAt` is the
      clock reading taken for the profile; `auth` and `store` are the
      services' replies. */
  function HandleSubmit(isSignup: bool, f: LoginForm, createdAt: string, auth: AuthReply, store: StoreReply): Trace {
    [SetBusy(true)]
    + (if isSignup then SignupBody(f, createdAt, auth, store) else LoginBody(f, auth))
    + [SetBusy(false)]
  }

  /** The handler's remote calls, alerts and navigation are those of its
      `try` body. */
  lemma SubmitFilters(isSignup: bool, f: LoginForm, createdAt: string, auth: AuthReply, store: StoreReply, k: Kind)
    requires k != Busy
    ensures var body := if isSignup then SignupBody(f, createdAt, auth, store) else LoginBody(f, auth);
            Only(HandleSubmit(isSignup, f, createdAt, auth, store), k) == Only(body, k)
  {
    Wrapped(if isSignup then SignupBody(f, createdAt, auth, store) else LoginBody(f, auth), k);
  }

  lemma OnlyPair(a: Effect, b: Effect, k: Kind)
    ensures Only([a, b], k) == Only([a], k) + Only([b], k)
  {
    assert [a, b] == [a] + [b];
    OnlyAppend([a], [b], k);
  }

  /** Whatever happens, the busy flag ends cleared. */
  lemma SubmitEndsIdle(busy: bool, isSignup: bool, f: LoginForm, createdAt: string, auth: AuthReply, store: StoreReply)
    ensures !BusyAfter(busy, HandleSubmit(isSignup, f, createdAt, auth, store))
  {
    var body := if isSignup then SignupBody(f, createdAt, auth, store) else LoginBody(f, auth);
    FinallyIdle(busy, [SetBusy(true)] + body);
  }

  /** Signup with differing passwords alerts the mismatch and calls no
      service; this check comes before the name and length check. */
  lemma SignupMismatch(f: LoginForm, createdAt: string, auth: AuthReply, store: StoreReply)
    requires f.password != f.confirmPassword
    ensures var t := HandleSubmit(true, f, createdAt, auth, store);
            Only(t, Remote) == [] && Only(t, Notice) == [Alert(PasswordMismatch)]
  {
    assert HandleSubmit(true, f, createdAt, auth, store)
        == [SetBusy(true)] + [Alert(PasswordMismatch), SetBusy(false)] + [SetBusy(false)];
    EarlyExit(PasswordMismatch);
  }

  /** Signup with matching passwords but an empty name or a password under
      six code units alerts "fill all fields" and calls no service. */
  lemma SignupIncomplete(f: LoginForm, createdAt: string, auth: AuthReply, store: StoreReply)
    requires f.password == f.confirmPassword
    requires f.name == "" || Utf16Length(f.password) < 6
    ensures var t := HandleSubmit(true, f, createdAt, auth, store);
            Only(t, Remote) == [] && Only(t, Notice) == [Alert(FillAllFields)]
  {
    assert HandleSubmit(true, f, createdAt, auth, store)
        == [SetBusy(true)] + [Alert(FillAllFields), SetBusy(false)] + [SetBusy(false)];
    EarlyExit(FillAllFields);
  }

  lemma AfterProfileFilters(store: StoreReply)
    ensures Only(AfterProfile(store), Remote) == []
    ensures Only(AfterProfile(store), Navigation) == (if store.Stored? then [Navigate(DashboardRoute)] else [])
  {
    match store
    case StoreRejected(m) => {
      OnlyOther(Alert(ErrorDetail("Error: " + m)), Remote);
      OnlyOther(Alert(ErrorDetail("Error: " + m)), Navigation);
    }
    case Stored => {
      OnlyPair(Alert(AccountCreated), Navigate(DashboardRoute), Remote);
      OnlyOther(Alert(AccountCreated), Remote);
      OnlyOther(Navigate(DashboardRoute), Remote);
      OnlyPair(Alert(AccountCreated), Navigate(DashboardRoute), Navigation);
      OnlyOther(Alert(AccountCreated), Navigation);
      OnlyOther(Navigate(DashboardRoute), Navigation);
    }
  }

  lemma AfterCreateFilters(f: LoginForm, createdAt: string, auth: AuthReply, store: StoreReply)
    ensures Only(AfterCreate(f, createdAt, auth, store), Remote)
         == (if auth.Authenticated? then [WriteUserDoc(auth.uid, Profile(f, createdAt))] else [])
    ensures Only(AfterCreate(f, createdAt, auth, store), Navigation)
         == (if auth.Authenticated? && store.Stored? then [Navigate(DashboardRoute)] else [])
  {
    match auth
    case AuthRejected(m) => {
      OnlyOther(Alert(ErrorDetail("Error: " + m)), Remote);
      OnlyOther(Alert(ErrorDetail("Error: " + m)), Navigation);
    }
    case Authenticated(uid) => {
      var w, rest := WriteUserDoc(uid, Profile(f, createdAt)), AfterProfile(store);
      assert AfterCreate(f, createdAt, auth, store) == [w] + rest;
      AfterProfileFilters(store);
      Prepend(w, rest, Remote);
      Prepend(w, rest, Navigation);
    }
  }

  /** Signup that passes both checks creates the account with the form's
      email and password and, once the account exists, writes the profile
      with the form's name, email, category, target time, age and gender. */
  lemma SignupProceeds(f: LoginForm, createdAt: string, auth: AuthReply, store: StoreReply)
    requires f.password == f.confirmPassword
    requires f.name != "" && Utf16Length(f.password) >= 6
    ensures Only(HandleSubmit(true, f, createdAt, auth, store), Remote) ==
              [CreateUser(f.email, f.password)]
              + (if auth.Authenticated?
                 then [WriteUserDoc(auth.uid, UserDoc(f.name, f.email, f.category, f.targetTime, f.age, f.gender, createdAt))]
                 else [])
  {
    var c := CreateUser(f.email, f.password);
    var rest := AfterCreate(f, createdAt, auth, store);
    assert SignupBody(f, createdAt, auth, store) == [c] + rest;
    SubmitFilters(true, f, createdAt, auth, store, Remote);
    Prepend(c, rest, Remote);
    AfterCreateFilters(f, createdAt, auth, store);
  }

  /** A signup leaves for the dashboard only when both the account and the
      profile were created. */
  lemma SignupNavigates(f: LoginForm, createdAt: string, auth: AuthReply, store: StoreReply)
    requires f.password == f.confirmPassword
    requires f.name != "" && Utf16Length(f.password) >= 6
    ensures Only(HandleSubmit(true, f, createdAt, auth, store), Navigation)
         == (if auth.Authenticated? && store.Stored? then [Navigate(DashboardRoute)] else [])
  {
    var c := CreateUser(f.email, f.password);
    var rest := AfterCreate(f, createdAt, auth, store);
    assert SignupBody(f, createdAt, auth, store) == [c] + rest;
    SubmitFilters(true, f, createdAt, auth, store, Navigation);
    Prepend(c, rest, Navigation);
    AfterCreateFilters(f, createdAt, auth, store);
  }

  /** Login with an empty email or password alerts "fill all fields" and
      makes no sign-in attempt. */
  lemma LoginIncomplete(f: LoginForm, createdAt: string, auth: AuthReply, store: StoreReply)
    requires f.email == "" || f.password == ""
    ensures var t := HandleSubmit(false, f, createdAt, auth, store);
            Only(t, Remote) == [] && Only(t, Notice) == [Alert(FillAllFields)]
  {
    assert HandleSubmit(false, f, createdAt, auth, store)
        == [SetBusy(true)] + [Alert(FillAllFields), SetBusy(false)] + [SetBusy(false)];
    EarlyExit(FillAllFields);
  }

  lemma AfterSignInFilters(auth: AuthReply)
    ensures Only(AfterSignIn(auth), Remote) == []
  {
    match auth
    case AuthRejected(m) => {
      OnlyOther(Alert(ErrorDetail("Error: " + m)), Remote);
    }
    case Authenticated(_) => {
      OnlyPair(Alert(LoginSuccess), Navigate(DashboardRoute), Remote);
      OnlyOther(Alert(LoginSuccess), Remote);
      OnlyOther(Navigate(DashboardRoute), Remote);
    }
  }

  /** Login with both fields filled makes exactly one sign-in attempt with
      them, however the passwords or name look. */
  lemma LoginProceeds(f: LoginForm, createdAt: string, auth: AuthReply, store: StoreReply)
    requires f.email != "" && f.password != ""
    ensures Only(HandleSubmit(false, f, createdAt, auth, store), Remote) == [SignIn(f.email, f.password)]
  {
    var w := SignIn(f.email, f.password);
    assert LoginBody(f, auth) == [w] + AfterSignIn(auth);
    AfterSignInFilters(auth);
    OneCall(w, AfterSignIn(auth));
  }

  /** Login mode never consults the confirmation or the name. */
  lemma LoginIgnoresSignupFields(f: LoginForm, confirm: string, name: string, createdAt: string, auth: AuthReply, store: StoreReply)
    ensures HandleSubmit(false, f, createdAt, auth, store)
         == HandleSubmit(false, f.(confirmPassword := confirm, name := name), createdAt, auth, store)
  {
  }

  /** The initial form: `Open`, 60 minutes, 30 years, `male`, empty text
      elsewhere; submitted untouched it is refused in either mode. */
  lemma InitialFormRefused(createdAt: string, auth: AuthReply, store: StoreReply)
    ensures InitialForm.category == "Open" && InitialForm.gender == "male"
    ensures InitialForm.targetTime == Int(60) && InitialForm.age == Int(30)
    ensures InitialForm.email == "" && InitialForm.password == "" && InitialForm.confirmPassword == "" && InitialForm.name == ""
    ensures Only(HandleSubmit(false, InitialForm, createdAt, auth, store), Remote) == []
    ensures Only(HandleSubmit(true, InitialForm, createdAt, auth, store), Remote) == []
  {
    LoginIncomplete(InitialForm, createdAt, auth, store);
    SignupIncomplete(InitialForm, createdAt, auth, store);
  }

  /** A five-character password is refused at signup even when the name is
      given and the confirmation matches. */
  lemma FiveCharacterPasswordRefused(f: LoginForm, createdAt: string, auth: AuthReply, store: StoreReply)
    requires f.password == "abc12" && f.confirmPassword == "abc12"
    ensures var t := HandleSubmit(true, f, createdAt, auth, store);
            Only(t, Remote) == [] && Only(t, Notice) == [Alert(FillAllFields)]
  {
    assert Utf16Length(f.password) == 5;
    SignupIncomplete(f, createdAt, auth, store);
  }
}
