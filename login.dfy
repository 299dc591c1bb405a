/** The Login screen: a check for empty fields, the login request, storing
    the token, fetching and storing the profile, and navigating on. */
module Login {
  import opened Js
  import opened Effects

  const LoginPath := "/api/auth/login"
  const ProfilePath := "/api/auth/profile"
  const MissingCredentials := "Please enter your email and password!"
  const LoginFailed := "Login failed. Please try again."
  const ProfileFailed := "Failed to fetch profile."

  /** The body posted to the login endpoint. */
  function Credentials(email: string, password: string): (b: JsonObject)
    ensures b.Keys == {"email", "password"}
    ensures b["email"] == email && b["password"] == password
  {
    map["email" := email, "password" := password]
  }

  /** The effects of `getProfile(token)`: the GET, then either the stored
      profile or an alert. */
  function ProfileEffects(token: string, reply: Reply<JsonObject>): (r: seq<Effect>)
    ensures |r| == 2 && r[0] == Request(Get, ProfilePath, BearerToken(token))
    ensures reply.Ok? ==> r[1] == SetItem(ProfileKey, Object(reply.body))
    ensures reply.Fail? ==> r[1] == Alert(FailureText(reply.error, ProfileFailed))
    ensures reply.Fail? ==> !Writes(r, ProfileKey) && !Writes(r, TokenKey)
  {
    [Request(Get, ProfilePath, BearerToken(token))]
    + match reply
      case Ok(data) => [SetItem(ProfileKey, Object(data))]
      case Fail(error) => [Alert(FailureText(error, ProfileFailed))]
  }

  /** What `getProfile` returns: the profile, or null on failure. */
  function ProfileResult(reply: Reply<JsonObject>): (r: Option<JsonObject>)
    ensures r.Some? <==> reply.Ok?
    ensures r.Some? ==> r.value == reply.body
  {
    if reply.Ok? then Some(reply.body) else None
  }

  /** What a successful login does with its token: store it, fetch and
      store the profile, and move on to the main app. */
  function TokenEffects(token: string, profile: Reply<JsonObject>): (r: seq<Effect>)
    ensures |r| == 4 && r[0] == SetItem(TokenKey, Plain(token)) && r[3] == Navigate(MainApp)
    ensures r[1..3] == ProfileEffects(token, profile)
  {
    [SetItem(TokenKey, Plain(token))] + ProfileEffects(token, profile) + [Navigate(MainApp)]
  }

  /** What `logIn` does with the outcome of its request: an alert for a
      failure, nothing for a falsy body, and the token effects otherwise. */
  function ReplyEffects(login: Reply<Option<string>>, profile: Reply<JsonObject>): (r: seq<Effect>)
    ensures login.Fail? ==> r == [Alert(FailureText(login.error, LoginFailed))]
    ensures login == Ok(None) ==> r == []
    ensures login.Ok? && login.body.Some? ==> r == TokenEffects(login.body.value, profile)
  {
    match login
    case Fail(error) => [Alert(FailureText(error, LoginFailed))]
    case Ok(None) => []
    case Ok(Some(token)) => TokenEffects(token, profile)
  }

  /** The effects of `logIn`. `login` is the outcome of the login request,
      whose body is the token or, as `None`, a falsy body; `profile` is the
      outcome of the profile request that follows a successful login. */
  function LogInEffects(email: string, password: string,
                        login: Reply<Option<string>>, profile: Reply<JsonObject>): (r: seq<Effect>)
    ensures email == "" || password == "" ==> r == [Alert(MissingCredentials)]
    ensures email != "" && password != "" ==>
      |r| >= 1 && r[0] == Request(Post, LoginPath, Form(Credentials(email, password)))
    ensures email != "" && password != "" && login.Fail? ==>
      r == [r[0], Alert(FailureText(login.error, LoginFailed))]
    ensures email != "" && password != "" && login == Ok(None) ==> r == [r[0]]
    ensures email != "" && password != "" && login.Ok? && login.body.Some? ==>
      r[1..] == TokenEffects(login.body.value, profile)
    ensures SendsRequest(r) <==> email != "" && password != ""
    ensures NavigatesTo(r, MainApp) <==> email != "" && password != "" && login.Ok? && login.body.Some?
    ensures Writes(r, TokenKey) <==> email != "" && password != "" && login.Ok? && login.body.Some?
  {
    if email == "" || password == "" then
      var r := [Alert(MissingCredentials)];
      assert !r[0].Request? && r[0] != Navigate(MainApp);
      r
    else
      var post := Request(Post, LoginPath, Form(Credentials(email, password)));
      var r := [post] + ReplyEffects(login, profile);
      assert r[0].Request? && r[1..] == ReplyEffects(login, profile);
      if login.Ok? && login.body.Some? then
        assert r[1].SetItem? && r[1].key == TokenKey && r[|r| - 1] == Navigate(MainApp);
        r
      else
        assert forall i :: 1 <= i < |r| ==> !r[i].SetItem? && r[i] != Navigate(MainApp);
        r
  }

  /** With both fields filled, `logIn` is the POST followed by what its outcome leads to. */
  lemma LogInEffectsSplit(email: string, password: string,
                          login: Reply<Option<string>>, profile: Reply<JsonObject>)
    requires email != "" && password != ""
    ensures LogInEffects(email, password, login, profile)
         == [Request(Post, LoginPath, Form(Credentials(email, password)))] + ReplyEffects(login, profile)
  {
  }

  /** A successful login stores the token before it asks for the profile,
      and navigates last, whether or not the profile could be fetched. */
  lemma LogInOrder(email: string, password: string, token: string, profile: Reply<JsonObject>)
    requires email != "" && password != ""
    ensures var r := LogInEffects(email, password, Ok(Some(token)), profile);
      |r| == 5
      && r[1] == SetItem(TokenKey, Plain(token))
      && r[2] == Request(Get, ProfilePath, BearerToken(token))
      && r[4] == Navigate(MainApp)
  {
  }

  /** What storage holds after a login: the token and, if it could be
      fetched, the profile; a failed profile fetch leaves the old profile. */
  lemma LogInStores(store: Store, email: string, password: string, token: string, profile: Reply<JsonObject>)
    requires email != "" && password != ""
    ensures var s := Apply(store, LogInEffects(email, password, Ok(Some(token)), profile));
      TokenKey in s && s[TokenKey] == Plain(token)
      && (profile.Ok? ==> ProfileKey in s && s[ProfileKey] == Object(profile.body))
      && (profile.Fail? ==> (ProfileKey in s <==> ProfileKey in store)
                            && (ProfileKey in store ==> s[ProfileKey] == store[ProfileKey]))
  {
    var r := LogInEffects(email, password, Ok(Some(token)), profile);
    ApplyLastWrite(store, r, 1);
    if profile.Ok? {
      ApplyLastWrite(store, r, 3);
    } else {
      assert !Writes(r, ProfileKey) by {
        assert forall i :: 0 <= i < |r| ==> !(r[i].SetItem? && r[i].key == ProfileKey);
      }
      ApplyKeepsUnwritten(store, r, ProfileKey);
    }
  }

  /** A failed or falsy login response stores nothing and goes nowhere. */
  lemma FailedLogInTouchesNothing(store: Store, email: string, password: string,
                                  login: Reply<Option<string>>, profile: Reply<JsonObject>)
    requires login.Fail? || login.body.None?
    ensures var r := LogInEffects(email, password, login, profile);
      Apply(store, r) == store && !NavigatesTo(r, MainApp)
  {
    var r := LogInEffects(email, password, login, profile);
    ApplyWithoutWrites(store, r);
  }

  class LoginScreen {
    var email: string
    var password: string
    const device: Device

    constructor (device: Device)
      ensures this.device == device && email == "" && password == ""
    {
      this.device := device;
      email := "";
      password := "";
    }

    method SetEmail(text: string)
      modifies this
      ensures email == text && password == old(password)
    {
      email := text;
    }

    method SetPassword(text: string)
      modifies this
      ensures password == text && email == old(email)
    {
      password := text;
    }

    /** `getProfile(token)`, with `reply` the outcome of its GET. */
    method GetProfile(token: string, reply: Reply<JsonObject>) returns (profile: Option<JsonObject>)
      modifies device
      ensures profile == ProfileResult(reply)
      ensures device.trace == old(device.trace) + ProfileEffects(token, reply)
      ensures device.store == Apply(old(device.store), ProfileEffects(token, reply))
    {
      ghost var store0 := device.store;
      var get := Request(Get, ProfilePath, BearerToken(token));
      device.Emit(get);
      var next: Effect;
      match reply {
        case Ok(data) =>
          next := SetItem(ProfileKey, Object(data));
          device.Emit(next);
          profile := Some(data);
        case Fail(error) =>
          next := Alert(FailureText(error, ProfileFailed));
          device.Emit(next);
          profile := None;
      }
      assert ProfileEffects(token, reply) == [get] + [next];
      ApplySnoc(store0, [], get);
      assert [] + [get] == [get];
      ApplySnoc(store0, [get], next);
    }

    /** The part of `logIn` that runs once the token has arrived. */
    method UseToken(token: string, profile: Reply<JsonObject>)
      modifies device
      ensures device.trace == old(device.trace) + TokenEffects(token, profile)
      ensures device.store == Apply(old(device.store), TokenEffects(token, profile))
    {
      ghost var store0 := device.store;
      var save := SetItem(TokenKey, Plain(token));
      device.Emit(save);
      ApplySnoc(store0, [], save);
      assert [] + [save] == [save];
      var fetched := GetProfile(token, profile);
      ghost var pe := ProfileEffects(token, profile);
      ApplyConcat(store0, [save], pe);
      device.Emit(Navigate(MainApp));
      ApplySnoc(store0, [save] + pe, Navigate(MainApp));
    }

    /** The part of `logIn` after its request, given the request's outcome. */
    method HandleLoginReply(login: Reply<Option<string>>, profile: Reply<JsonObject>)
      modifies device
      ensures device.trace == old(device.trace) + ReplyEffects(login, profile)
      ensures device.store == Apply(old(device.store), ReplyEffects(login, profile))
    {
      match login {
        case Fail(error) =>
          var alert := Alert(FailureText(error, LoginFailed));
          ghost var store0 := device.store;
          device.Emit(alert);
          ApplySnoc(store0, [], alert);
          assert [] + [alert] == [alert];
        case Ok(data) =>
          if data.Some? {
            UseToken(data.value, profile);
          }
      }
    }

    /** `logIn`, with `login` and `profile` the outcomes of its two requests. */
    method LogIn(login: Reply<Option<string>>, profile: Reply<JsonObject>)
      modifies device
      ensures device.trace == old(device.trace) + LogInEffects(email, password, login, profile)
      ensures device.store == Apply(old(device.store), LogInEffects(email, password, login, profile))
    {
      if email == "" || password == "" {
        ghost var store0 := device.store;
        var alert := Alert(MissingCredentials);
        device.Emit(alert);
        ApplySnoc(store0, [], alert);
        assert [] + [alert] == [alert];
        return;
      }
      SendLogin(login, profile);
      LogInEffectsSplit(email, password, login, profile);
    }

    /** The part of `logIn` once both fields are filled: the POST, then its outcome. */
    method SendLogin(login: Reply<Option<string>>, profile: Reply<JsonObject>)
      modifies device
      ensures device.trace == old(device.trace)
        + ([Request(Post, LoginPath, Form(Credentials(email, password)))] + ReplyEffects(login, profile))
      ensures device.store == Apply(old(device.store),
        [Request(Post, LoginPath, Form(Credentials(email, password)))] + ReplyEffects(login, profile))
    {
      ghost var store0 := device.store;
      var post := Request(Post, LoginPath, Form(Credentials(email, password)));
      device.Emit(post);
      ApplySnoc(store0, [], post);
      assert [] + [post] == [post];
      HandleLoginReply(login, profile);
      ApplyConcat(store0, [post], ReplyEffects(login, profile));
    }
  }
}
