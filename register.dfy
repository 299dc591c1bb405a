/** The Register screen: the live password-match and strength indicators,
    the ordered input checks, and the sign-up sequence (post, store the
    token, store a reduced profile, navigate). */
module Register {
  import opened Js
  import opened Text
  import opened Effects

  const RegisterPath := "/api/auth/register"
  const RegistrationFailed := "Registration failed. Please try again."

  /** The five text inputs of the form. */
  datatype RegisterForm = RegisterForm(
    fullName: string,
    username: string,
    email: string,
    password: string,
    confirmPassword: string)

  /** Why `validateInputs` refused the form, in the order it tests. */
  datatype Failure = MissingFullName | MissingUsername | MissingEmail | MissingPassword
                   | MissingConfirmPassword | PasswordMismatch

  /** The banner text of each failure: a missing input asks for it, and a
      mismatch says so. */
  function Message(e: Failure): (r: string)
    ensures e != PasswordMismatch ==> |r| > 7 && r[..7] == "Please "
    ensures e == PasswordMismatch <==> r == "Passwords do not match"
  {
    match e
    case MissingFullName => "Please enter your full name"
    case MissingUsername => "Please enter a username"
    case MissingEmail => "Please enter your email"
    case MissingPassword => "Please enter a password"
    case MissingConfirmPassword => "Please confirm your password"
    case PasswordMismatch => "Passwords do not match"
  }

  /** Each failure has its own banner text, so the banner tells which check failed. */
  lemma MessagesDiffer(a: Failure, b: Failure)
    requires a != b
    ensures Message(a) != Message(b)
  {
  }

  datatype Check = Passed | Rejected(reason: Failure)

  /** Every input has a character other than white space. */
  predicate Filled(f: RegisterForm) {
    !Blank(f.fullName) && !Blank(f.username) && !Blank(f.email)
    && !Blank(f.password) && !Blank(f.confirmPassword)
  }

  /** The inputs in the order `validateInputs` tests them. */
  function Fields(f: RegisterForm): (r: seq<string>)
    ensures |r| == 5
  {
    [f.fullName, f.username, f.email, f.password, f.confirmPassword]
  }

  /** The position of a failure among the checks. */
  function Rank(e: Failure): (k: nat)
    ensures k < 6
  {
    match e
    case MissingFullName => 0
    case MissingUsername => 1
    case MissingEmail => 2
    case MissingPassword => 3
    case MissingConfirmPassword => 4
    case PasswordMismatch => 5
  }

  /** The outcome of `validateInputs`: the first check that fails, or none.
      An input counts as missing when `trim()` leaves nothing of it, that is
      (by `Text.TrimEmptyIffBlank`) when it is blank. */
  function Validate(f: RegisterForm): (r: Check)
    ensures r.Passed? <==> Filled(f) && f.password == f.confirmPassword
    ensures r == Rejected(PasswordMismatch) <==> Filled(f) && f.password != f.confirmPassword
  {
    if Blank(f.fullName) then Rejected(MissingFullName)
    else if Blank(f.username) then Rejected(MissingUsername)
    else if Blank(f.email) then Rejected(MissingEmail)
    else if Blank(f.password) then Rejected(MissingPassword)
    else if Blank(f.confirmPassword) then Rejected(MissingConfirmPassword)
    else if f.password != f.confirmPassword then Rejected(PasswordMismatch)
    else Passed
  }

  /** Only the first failing check is reported: a missing input is blank
      and every input tested before it is not. */
  lemma RejectionNamesFirstFailure(f: RegisterForm)
    requires Validate(f).Rejected? && Validate(f).reason != PasswordMismatch
    ensures Blank(Fields(f)[Rank(Validate(f).reason)])
    ensures forall j :: 0 <= j < Rank(Validate(f).reason) ==> !Blank(Fields(f)[j])
  {
    var fs := Fields(f);
    match Validate(f).reason
    case MissingFullName =>
    case MissingUsername => assert !Blank(fs[0]);
    case MissingEmail => assert !Blank(fs[0]) && !Blank(fs[1]);
    case MissingPassword => assert !Blank(fs[0]) && !Blank(fs[1]) && !Blank(fs[2]);
    case MissingConfirmPassword =>
      assert !Blank(fs[0]) && !Blank(fs[1]) && !Blank(fs[2]) && !Blank(fs[3]);
  }

  /** The mismatch test compares the raw strings, so a trailing space in
      one password and not the other is rejected. */
  lemma TrailingSpaceRejected()
    ensures Validate(RegisterForm("Ann", "ann", "a@b.c", "a ", "a")) == Rejected(PasswordMismatch)
  {
    var f := RegisterForm("Ann", "ann", "a@b.c", "a ", "a");
    assert !IsSpace(f.fullName[0]) && !IsSpace(f.username[0]) && !IsSpace(f.email[0]);
    assert !IsSpace(f.password[0]) && !IsSpace(f.confirmPassword[0]);
    assert f.password != f.confirmPassword by {
      assert |f.password| != |f.confirmPassword|;
    }
  }

  /** The four classes of characters the strength indicator looks for. */
  datatype CharClass = Uppercase | Lowercase | Digit | Special

  /** The characters of `/[!@#$%^&*(),.?":{}|<>]/`. */
  const SpecialChars := "!@#$%^&*(),.?\":{}|<>"

  predicate InClass(c: char, cls: CharClass) {
    match cls
    case Uppercase => IsUpperAscii(c)
    case Lowercase => IsLowerAscii(c)
    case Digit => IsDigitAscii(c)
    case Special => c in SpecialChars
  }

  /** The regular-expression test: does `s` contain a character of `cls`? */
  function HasCharIn(s: string, cls: CharClass): (r: bool)
    ensures r <==> exists i :: 0 <= i < |s| && InClass(s[i], cls)
    decreases |s|
  {
    if s == [] then false
    else if InClass(s[0], cls) then true
    else
      var r := HasCharIn(s[1..], cls);
      assert forall i :: 1 <= i < |s| ==> s[i] == s[1..][i - 1];
      assert r ==> exists i :: 0 <= i < |s| && InClass(s[i], cls) by {
        if r {
          var i :| 0 <= i < |s[1..]| && InClass(s[1..][i], cls);
          assert InClass(s[i + 1], cls);
        }
      }
      r
  }

  /** `passwordRequirements`. */
  datatype Requirements = Requirements(uppercase: bool, lowercase: bool, number: bool, special: bool)

  /** The regular-expression test for each class, in the class's own terms. */
  lemma HasUppercase(s: string)
    ensures HasCharIn(s, Uppercase) <==> exists i :: 0 <= i < |s| && IsUpperAscii(s[i])
  {
    if HasCharIn(s, Uppercase) {
      var i :| 0 <= i < |s| && InClass(s[i], Uppercase);
    }
    if i :| 0 <= i < |s| && IsUpperAscii(s[i]) {
      assert InClass(s[i], Uppercase);
    }
  }

  lemma HasLowercase(s: string)
    ensures HasCharIn(s, Lowercase) <==> exists i :: 0 <= i < |s| && IsLowerAscii(s[i])
  {
    if HasCharIn(s, Lowercase) {
      var i :| 0 <= i < |s| && InClass(s[i], Lowercase);
    }
    if i :| 0 <= i < |s| && IsLowerAscii(s[i]) {
      assert InClass(s[i], Lowercase);
    }
  }

  lemma HasDigit(s: string)
    ensures HasCharIn(s, Digit) <==> exists i :: 0 <= i < |s| && IsDigitAscii(s[i])
  {
    if HasCharIn(s, Digit) {
      var i :| 0 <= i < |s| && InClass(s[i], Digit);
    }
    if i :| 0 <= i < |s| && IsDigitAscii(s[i]) {
      assert InClass(s[i], Digit);
    }
  }

  lemma HasSpecial(s: string)
    ensures HasCharIn(s, Special) <==> exists i :: 0 <= i < |s| && s[i] in SpecialChars
  {
    if HasCharIn(s, Special) {
      var i :| 0 <= i < |s| && InClass(s[i], Special);
    }
    if i :| 0 <= i < |s| && s[i] in SpecialChars {
      assert InClass(s[i], Special);
    }
  }

  /** The strength flags of a password. */
  function RequirementsOf(password: string): (r: Requirements)
    ensures r.uppercase <==> exists i :: 0 <= i < |password| && IsUpperAscii(password[i])
    ensures r.lowercase <==> exists i :: 0 <= i < |password| && IsLowerAscii(password[i])
    ensures r.number <==> exists i :: 0 <= i < |password| && IsDigitAscii(password[i])
    ensures r.special <==> exists i :: 0 <= i < |password| && password[i] in SpecialChars
  {
    HasUppercase(password);
    HasLowercase(password);
    HasDigit(password);
    HasSpecial(password);
    Requirements(
      HasCharIn(password, Uppercase), HasCharIn(password, Lowercase),
      HasCharIn(password, Digit), HasCharIn(password, Special))
  }

  /** The strength flags are advisory: a password with none of them still
      passes validation. */
  lemma WeakPasswordAccepted()
    ensures RequirementsOf("~~") == Requirements(false, false, false, false)
    ensures Validate(RegisterForm("Ann", "ann", "a@b.c", "~~", "~~")) == Passed
  {
    var f := RegisterForm("Ann", "ann", "a@b.c", "~~", "~~");
    assert !IsSpace(f.fullName[0]) && !IsSpace(f.username[0]) && !IsSpace(f.email[0]);
    assert !IsSpace(f.password[0]) && !IsSpace(f.confirmPassword[0]);
    assert forall i :: 0 <= i < |SpecialChars| ==> SpecialChars[i] != '~';
  }

  /** The text under the confirm field: it says "Passwords Match" iff the
      two inputs are equal, so also before anything was typed. */
  function MatchIndicator(password: string, confirmPassword: string): (r: string)
    ensures r == "Passwords Match" <==> password == confirmPassword
  {
    if password == confirmPassword then "Passwords Match" else "Passwords Do Not Match"
  }

  /** The posted body: `name` carries the full name; the four socials are empty. */
  function RegisterBody(f: RegisterForm): (b: JsonObject)
    ensures b.Keys == {"username", "email", "password", "name", "linkedIn", "discord", "instagram", "twitter"}
    ensures b["username"] == f.username && b["email"] == f.email && b["password"] == f.password
    ensures b["name"] == f.fullName
    ensures b["linkedIn"] == "" && b["discord"] == "" && b["instagram"] == "" && b["twitter"] == ""
    ensures "fullName" !in b && "confirmPassword" !in b
  {
    map["username" := f.username, "email" := f.email, "password" := f.password, "name" := f.fullName,
        "linkedIn" := "", "discord" := "", "instagram" := "", "twitter" := ""]
  }

  /** The members of the stored profile. */
  const ProfileMembers: set<string> := {"_id", "username", "email", "name"}

  /** `JSON.stringify({_id, username, email, name})`: members the response
      lacks are `undefined` and vanish from the stored text. */
  function ReducedProfile(data: JsonObject): (p: JsonObject)
    ensures p.Keys == data.Keys * ProfileMembers
    ensures forall k :: k in p ==> p[k] == data[k]
  {
    map k | k in data.Keys * ProfileMembers :: data[k]
  }

  /** The reduced profile answers the four lookups exactly as the response
      does, and nothing else. */
  lemma ReducedProfileLookups(data: JsonObject, k: string)
    ensures k in ProfileMembers ==> Member(ReducedProfile(data), k) == Member(data, k)
    ensures k !in ProfileMembers ==> Member(ReducedProfile(data), k) == None
  {
  }

  /** Reducing twice is reducing once. */
  lemma ReducedProfileIdempotent(data: JsonObject)
    ensures ReducedProfile(ReducedProfile(data)) == ReducedProfile(data)
  {
  }

  /** A truthy registration response: its `token` and its other members. */
  datatype Registered = Registered(token: string, data: JsonObject)

  /** The effects of `register`. `reply` is the outcome of the post; a body
      of `None` is a falsy response. */
  function RegisterEffects(f: RegisterForm, reply: Reply<Option<Registered>>): (r: seq<Effect>)
    ensures Validate(f).Rejected? ==> r == [Banner(Message(Validate(f).reason))]
    ensures Validate(f).Passed? ==> r == PostEffects(f, reply)
    ensures Validate(f).Passed? ==> |r| >= 1 && r[0] == Request(Post, RegisterPath, Form(RegisterBody(f)))
    ensures Validate(f).Passed? && reply.Fail? ==>
      r == [r[0], Banner(FailureText(reply.error, RegistrationFailed))]
    ensures SendsRequest(r) <==> Validate(f).Passed?
    ensures NavigatesTo(r, MainApp) <==> Validate(f).Passed? && reply.Ok? && reply.body.Some?
    ensures Writes(r, TokenKey) <==> Validate(f).Passed? && reply.Ok? && reply.body.Some?
    ensures Writes(r, ProfileKey) <==> Validate(f).Passed? && reply.Ok? && reply.body.Some?
  {
    match Validate(f)
    case Rejected(reason) =>
      var r := [Banner(Message(reason))];
      assert !r[0].Request? && !r[0].SetItem? && r[0] != Navigate(MainApp);
      r
    case Passed => PostEffects(f, reply)
  }

  /** The effects of `register` once the inputs have passed: the post, then
      a banner, nothing, or the stored registration. */
  function PostEffects(f: RegisterForm, reply: Reply<Option<Registered>>): (r: seq<Effect>)
    ensures |r| >= 1 && r[0] == Request(Post, RegisterPath, Form(RegisterBody(f)))
    ensures reply.Fail? ==> r == [r[0], Banner(FailureText(reply.error, RegistrationFailed))]
    ensures reply == Ok(None) ==> r == [r[0]]
    ensures reply.Ok? && reply.body.Some? ==> r[1..] == StoreRegistration(reply.body.value)
    ensures SendsRequest(r)
    ensures NavigatesTo(r, MainApp) <==> reply.Ok? && reply.body.Some?
    ensures Writes(r, TokenKey) <==> reply.Ok? && reply.body.Some?
    ensures Writes(r, ProfileKey) <==> reply.Ok? && reply.body.Some?
  {
    var post := Request(Post, RegisterPath, Form(RegisterBody(f)));
    match reply
    case Fail(error) =>
      var r := [post, Banner(FailureText(error, RegistrationFailed))];
      assert r[0].Request?;
      assert !r[1].SetItem? && r[1] != Navigate(MainApp);
      r
    case Ok(None) =>
      var r := [post];
      assert r[0].Request?;
      r
    case Ok(Some(d)) =>
      var r := [post] + StoreRegistration(d);
      assert r[0].Request? && r[1].SetItem? && r[1].key == TokenKey;
      assert r[2].SetItem? && r[2].key == ProfileKey && r[3] == Navigate(MainApp);
      r
  }

  /** What `register` does with the outcome of its POST: a banner for a
      failure, nothing for a falsy response, the stored registration otherwise. */
  function OutcomeEffects(reply: Reply<Option<Registered>>): (r: seq<Effect>)
    ensures reply.Fail? ==> r == [Banner(FailureText(reply.error, RegistrationFailed))]
    ensures reply == Ok(None) ==> r == []
    ensures reply.Ok? && reply.body.Some? ==> r == StoreRegistration(reply.body.value)
  {
    match reply
    case Fail(error) => [Banner(FailureText(error, RegistrationFailed))]
    case Ok(None) => []
    case Ok(Some(d)) => StoreRegistration(d)
  }

  /** Once the inputs have passed, `register` is the POST followed by what its outcome leads to. */
  lemma PostEffectsSplit(f: RegisterForm, reply: Reply<Option<Registered>>)
    ensures PostEffects(f, reply) == [Request(Post, RegisterPath, Form(RegisterBody(f)))] + OutcomeEffects(reply)
  {
  }

  /** What a truthy response leads to: the token, then the reduced profile,
      then the main app. */
  function StoreRegistration(d: Registered): (r: seq<Effect>)
    ensures |r| == 3 && r[0] == SetItem(TokenKey, Plain(d.token))
    ensures r[1] == SetItem(ProfileKey, Object(ReducedProfile(d.data))) && r[2] == Navigate(MainApp)
  {
    [SetItem(TokenKey, Plain(d.token)), SetItem(ProfileKey, Object(ReducedProfile(d.data))), Navigate(MainApp)]
  }

  /** After a successful sign-up, storage holds the token and the reduced profile. */
  lemma RegisterStores(store: Store, f: RegisterForm, d: Registered)
    requires Validate(f).Passed?
    ensures var s := Apply(store, RegisterEffects(f, Ok(Some(d))));
      TokenKey in s && s[TokenKey] == Plain(d.token)
      && ProfileKey in s && s[ProfileKey] == Object(ReducedProfile(d.data))
  {
    var r := RegisterEffects(f, Ok(Some(d)));
    ApplyLastWrite(store, r, 1);
    ApplyLastWrite(store, r, 2);
  }

  /** A rejected form or a failed or falsy response leaves storage alone. */
  lemma UnsuccessfulRegisterTouchesNothing(store: Store, f: RegisterForm, reply: Reply<Option<Registered>>)
    requires Validate(f).Rejected? || reply.Fail? || reply.body.None?
    ensures Apply(store, RegisterEffects(f, reply)) == store
  {
    var r := RegisterEffects(f, reply);
    ApplyWithoutWrites(store, r);
  }

  /** The screen's state. `passwordsMatch` and `passwordRequirements` are
      kept by effects that rerun whenever the password fields change; they
      are held here at the values those effects settle on. */
  class RegisterScreen {
    var fullName: string
    var username: string
    var email: string
    var password: string
    var confirmPassword: string
    var showPassword: bool
    var showConfirmPassword: bool
    var showPasswordRequirements: bool
    var passwordsMatch: bool
    var requirements: Requirements
    var errorMessage: string
    const device: Device

    ghost predicate Valid()
      reads this
    {
      passwordsMatch == (password == confirmPassword)
      && requirements == RequirementsOf(password)
    }

    function Inputs(): RegisterForm
      reads this
    {
      RegisterForm(fullName, username, email, password, confirmPassword)
    }

    /** The three visibility flags: password shown, confirmation shown, strength list shown. */
    function ViewFlags(): (bool, bool, bool)
      reads this
    {
      (showPassword, showConfirmPassword, showPasswordRequirements)
    }

    constructor (device: Device)
      ensures Valid() && this.device == device
      ensures Inputs() == RegisterForm("", "", "", "", "") && errorMessage == ""
      ensures !showPassword && !showConfirmPassword && !showPasswordRequirements
    {
      this.device := device;
      fullName, username, email, password, confirmPassword := "", "", "", "", "";
      showPassword, showConfirmPassword, showPasswordRequirements := false, false, false;
      passwordsMatch := true;
      requirements := RequirementsOf("");
      errorMessage := "";
    }

    method SetFullName(text: string)
      requires Valid()
      modifies this
      ensures Valid() && Inputs() == old(Inputs()).(fullName := text)
      ensures errorMessage == old(errorMessage) && ViewFlags() == old(ViewFlags())
    {
      fullName := text;
    }

    method SetUsername(text: string)
      requires Valid()
      modifies this
      ensures Valid() && Inputs() == old(Inputs()).(username := text)
      ensures errorMessage == old(errorMessage) && ViewFlags() == old(ViewFlags())
    {
      username := text;
    }

    method SetEmail(text: string)
      requires Valid()
      modifies this
      ensures Valid() && Inputs() == old(Inputs()).(email := text)
      ensures errorMessage == old(errorMessage) && ViewFlags() == old(ViewFlags())
    {
      email := text;
    }

    /** Typing a password reruns both derived values. */
    method SetPassword(text: string)
      requires Valid()
      modifies this
      ensures Valid() && Inputs() == old(Inputs()).(password := text)
      ensures errorMessage == old(errorMessage) && ViewFlags() == old(ViewFlags())
      ensures passwordsMatch == (text == confirmPassword) && requirements == RequirementsOf(text)
    {
      password := text;
      passwordsMatch := password == confirmPassword;
      requirements := RequirementsOf(password);
    }

    method SetConfirmPassword(text: string)
      requires Valid()
      modifies this
      ensures Valid() && Inputs() == old(Inputs()).(confirmPassword := text)
      ensures errorMessage == old(errorMessage) && ViewFlags() == old(ViewFlags())
      ensures requirements == old(requirements)
    {
      confirmPassword := text;
      passwordsMatch := password == confirmPassword;
    }

    /** Focusing and leaving the password field show and hide the strength list. */
    method SetPasswordFocus(focused: bool)
      requires Valid()
      modifies this
      ensures Valid() && Inputs() == old(Inputs()) && showPasswordRequirements == focused
      ensures showPassword == old(showPassword) && showConfirmPassword == old(showConfirmPassword)
      ensures errorMessage == old(errorMessage)
    {
      showPasswordRequirements := focused;
    }

    method ToggleShowPassword()
      requires Valid()
      modifies this
      ensures Valid() && Inputs() == old(Inputs()) && showPassword == !old(showPassword)
      ensures showConfirmPassword == old(showConfirmPassword)
      ensures showPasswordRequirements == old(showPasswordRequirements) && errorMessage == old(errorMessage)
    {
      showPassword := !showPassword;
    }

    method ToggleShowConfirmPassword()
      requires Valid()
      modifies this
      ensures Valid() && Inputs() == old(Inputs()) && showConfirmPassword == !old(showConfirmPassword)
      ensures showPassword == old(showPassword)
      ensures showPasswordRequirements == old(showPasswordRequirements) && errorMessage == old(errorMessage)
    {
      showConfirmPassword := !showConfirmPassword;
    }

    /** `showErrorModal`: the banner text, shown through the trace. */
    method ShowError(message: string)
      requires Valid()
      modifies this, device
      ensures Valid() && Inputs() == old(Inputs()) && errorMessage == message
      ensures ViewFlags() == old(ViewFlags())
      ensures device.trace == old(device.trace) + [Banner(message)]
      ensures device.store == old(device.store)
    {
      errorMessage := message;
      device.Emit(Banner(message));
    }

    /** `validateInputs`: tests the inputs in order and reports the first failure. */
    method ValidateInputs() returns (ok: bool)
      requires Valid()
      modifies this, device
      ensures Valid() && Inputs() == old(Inputs())
      ensures ok <==> Validate(Inputs()).Passed?
      ensures ViewFlags() == old(ViewFlags())
      ensures ok ==> device.trace == old(device.trace) && errorMessage == old(errorMessage)
      ensures !ok ==> device.trace == old(device.trace) + [Banner(Message(Validate(Inputs()).reason))]
      ensures !ok ==> errorMessage == Message(Validate(Inputs()).reason)
      ensures device.store == old(device.store)
    {
      TrimEmptyIffBlank(fullName);
      TrimEmptyIffBlank(username);
      TrimEmptyIffBlank(email);
      TrimEmptyIffBlank(password);
      TrimEmptyIffBlank(confirmPassword);
      if Trim(fullName) == "" {
        ShowError(Message(MissingFullName));
        return false;
      }
      if Trim(username) == "" {
        ShowError(Message(MissingUsername));
        return false;
      }
      if Trim(email) == "" {
        ShowError(Message(MissingEmail));
        return false;
      }
      if Trim(password) == "" {
        ShowError(Message(MissingPassword));
        return false;
      }
      if Trim(confirmPassword) == "" {
        ShowError(Message(MissingConfirmPassword));
        return false;
      }
      if password != confirmPassword {
        ShowError(Message(PasswordMismatch));
        return false;
      }
      return true;
    }

    /** `register`, with `reply` the outcome of the post. */
    method Register(reply: Reply<Option<Registered>>)
      requires Valid()
      modifies this, device
      ensures Valid() && Inputs() == old(Inputs())
      ensures device.trace == old(device.trace) + RegisterEffects(old(Inputs()), reply)
      ensures ViewFlags() == old(ViewFlags())
      ensures Validate(old(Inputs())).Rejected? ==> errorMessage == Message(Validate(old(Inputs())).reason)
      ensures Validate(old(Inputs())).Passed? && reply.Fail? ==>
        errorMessage == FailureText(reply.error, RegistrationFailed)
      ensures Validate(old(Inputs())).Passed? && reply.Ok? ==> errorMessage == old(errorMessage)
      ensures device.store == Apply(old(device.store), RegisterEffects(old(Inputs()), reply))
    {
      ghost var store0 := device.store;
      var ok := ValidateInputs();
      if !ok {
        ApplySnoc(store0, [], Banner(Message(Validate(Inputs()).reason)));
        assert [] + [Banner(Message(Validate(Inputs()).reason))] == [Banner(Message(Validate(Inputs()).reason))];
        return;
      }
      SendRegistration(reply);
    }

    /** The part of `register` after the inputs have passed. */
    method SendRegistration(reply: Reply<Option<Registered>>)
      requires Valid()
      modifies this, device
      ensures Valid() && Inputs() == old(Inputs())
      ensures device.trace == old(device.trace) + PostEffects(old(Inputs()), reply)
      ensures ViewFlags() == old(ViewFlags())
      ensures reply.Fail? ==> errorMessage == FailureText(reply.error, RegistrationFailed)
      ensures reply.Ok? ==> errorMessage == old(errorMessage)
      ensures device.store == Apply(old(device.store), PostEffects(old(Inputs()), reply))
    {
      PostRegistration(reply);
      PostEffectsSplit(Inputs(), reply);
    }

    /** The POST of the inputs, then what its outcome leads to. */
    method PostRegistration(reply: Reply<Option<Registered>>)
      requires Valid()
      modifies this, device
      ensures Valid() && Inputs() == old(Inputs())
      ensures device.trace == old(device.trace)
        + ([Request(Post, RegisterPath, Form(RegisterBody(old(Inputs()))))] + OutcomeEffects(reply))
      ensures ViewFlags() == old(ViewFlags())
      ensures reply.Fail? ==> errorMessage == FailureText(reply.error, RegistrationFailed)
      ensures reply.Ok? ==> errorMessage == old(errorMessage)
      ensures device.store == Apply(old(device.store),
        [Request(Post, RegisterPath, Form(RegisterBody(old(Inputs()))))] + OutcomeEffects(reply))
    {
      ghost var store0 := device.store;
      var post := Request(Post, RegisterPath, Form(RegisterBody(Inputs())));
      device.Emit(post);
      ApplySnoc(store0, [], post);
      assert [] + [post] == [post];
      HandleRegistrationReply(reply);
      ApplyConcat(store0, [post], OutcomeEffects(reply));
    }

    /** The part of `register` after its POST, given the POST's outcome. */
    method HandleRegistrationReply(reply: Reply<Option<Registered>>)
      requires Valid()
      modifies this, device
      ensures Valid() && Inputs() == old(Inputs())
      ensures device.trace == old(device.trace) + OutcomeEffects(reply)
      ensures ViewFlags() == old(ViewFlags())
      ensures reply.Fail? ==> errorMessage == FailureText(reply.error, RegistrationFailed)
      ensures reply.Ok? ==> errorMessage == old(errorMessage)
      ensures device.store == Apply(old(device.store), OutcomeEffects(reply))
    {
      match reply {
        case Fail(error) =>
          ghost var store0 := device.store;
          var msg := FailureText(error, RegistrationFailed);
          ShowError(msg);
          ApplySnoc(store0, [], Banner(msg));
          assert [] + [Banner(msg)] == [Banner(msg)];
        case Ok(body) =>
          if body.Some? {
            StoreResponse(body.value);
          }
      }
    }

    /** The part of `register` that runs on a truthy response. */
    method StoreResponse(d: Registered)
      modifies device
      ensures device.trace == old(device.trace) + StoreRegistration(d)
      ensures device.store == Apply(old(device.store), StoreRegistration(d))
    {
      ghost var store0 := device.store;
      var token := SetItem(TokenKey, Plain(d.token));
      var profile := SetItem(ProfileKey, Object(ReducedProfile(d.data)));
      device.Emit(token);
      ApplySnoc(store0, [], token);
      assert [] + [token] == [token];
      device.Emit(profile);
      ApplySnoc(store0, [token], profile);
      assert [token] + [profile] == [token, profile];
      device.Emit(Navigate(MainApp));
      ApplySnoc(store0, [token, profile], Navigate(MainApp));
      assert [token, profile] + [Navigate(MainApp)] == StoreRegistration(d);
    }
  }
}
