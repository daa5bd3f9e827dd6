/** The authentication handlers: the registration and login forms, login
    against the users table, and logout. */
module AuthController {
  import opened Wrappers
  import opened JsValue
  import opened Http
  import opened UserModel
  import opened Routes

  datatype Handler = GetRegistrationForm | GetLoginForm | Login | Logout

  /** `registerRoutes`: the four routes in registration order. */
  function RegisterRoutes(): (table: seq<Route<Handler>>)
    ensures forall i :: 0 <= i < |table| ==> !HasParam(table[i].pattern)
  {
    [ Route(GET, ["", "register"], GetRegistrationForm),
      Route(GET, ["", "login"], GetLoginForm),
      Route(POST, ["", "login"], Login),
      Route(GET, ["", "logout"], Logout) ]
  }

  /** GET `/login` shows the form and POST `/login` logs in: the two entries
      on one path are told apart by their method alone. */
  lemma LoginRoutesReached()
    ensures Dispatch(RegisterRoutes(), GET, ["", "login"]) == Some(GetLoginForm)
    ensures Dispatch(RegisterRoutes(), POST, ["", "login"]) == Some(Login)
    ensures Dispatch(RegisterRoutes(), GET, ["", "register"]) == Some(GetRegistrationForm)
    ensures Dispatch(RegisterRoutes(), GET, ["", "logout"]) == Some(Logout)
  {
    var table := RegisterRoutes();
    assert Selects(table[0], GET, ["", "register"]) by {
      assert SegmentMatches(table[0].pattern[1], "register");
    }
    assert !Selects(table[0], GET, ["", "login"]) by {
      assert !SegmentMatches(table[0].pattern[1], "login");
    }
    assert Selects(table[1], GET, ["", "login"]) by {
      assert SegmentMatches(table[1].pattern[1], "login");
    }
    assert Selects(table[2], POST, ["", "login"]) by {
      assert SegmentMatches(table[2].pattern[1], "login");
    }
    assert !Selects(table[0], GET, ["", "logout"]) && !Selects(table[1], GET, ["", "logout"]) by {
      assert !SegmentMatches(table[0].pattern[1], "logout") && !SegmentMatches(table[1].pattern[1], "logout");
    }
    assert Selects(table[3], GET, ["", "logout"]) by {
      assert SegmentMatches(table[3].pattern[1], "logout");
    }
  }

  /** The reply of a form handler: OK, the view, and `payload.error` echoing
      the `error` query parameter (`null` when absent). */
  function FormReply(template: string, req: Request): (e: Envelope)
    ensures e.statusCode == OK && e.redirect == None && e.template == Some(template)
    ensures e.payload == Some(Obj(map["error" := req.Search("error")]))
    ensures "error" in req.query ==> e.payload.value.fields["error"] == Str(req.query["error"])
    ensures "error" !in req.query ==> e.payload.value.fields["error"] == Null
  {
    Envelope(OK, "getting form", None, Some(template), Some(Obj(map["error" := req.Search("error")])))
  }

  /** `getRegistrationForm`: always hands the client its session cookie. */
  method GetRegistrationFormHandler(req: Request, res: Response)
    requires res.sent == None
    modifies res
    ensures res.cookies == old(res.cookies) + [Cookie("session_id", req.session.id)]
    ensures res.sent == Some(FormReply("RegisterFormView", req))
  {
    res.SetCookie(Cookie("session_id", req.session.id));
    res.Send(FormReply("RegisterFormView", req));
  }

  /** `getLoginForm`: always hands the client its session cookie. */
  method GetLoginFormHandler(req: Request, res: Response)
    requires res.sent == None
    modifies res
    ensures res.cookies == old(res.cookies) + [Cookie("session_id", req.session.id)]
    ensures res.sent == Some(FormReply("LoginFormView", req))
  {
    res.SetCookie(Cookie("session_id", req.session.id));
    res.Send(FormReply("LoginFormView", req));
  }

  /** The session after a successful login of `u`: logged in, the user's id,
      and the admin flag as exactly true or false. */
  function LoggedIn(store: map<string, Value>, u: UserProps): (s: map<string, Value>)
    ensures s.Keys == store.Keys + {"isLoggedIn", "userId", "isAdmin"}
    ensures s["isLoggedIn"] == Bool(true) && s["userId"] == Num(u.id) && s["isAdmin"] == Bool(u.isAdmin)
    ensures forall k :: k in store && k !in {"isLoggedIn", "userId", "isAdmin"} ==> s[k] == store[k]
  {
    store["isLoggedIn" := Bool(true)]["userId" := Num(u.id)]["isAdmin" := Bool(u.isAdmin)]
  }

  /** The cookies a successful login adds: the session id, then the email
      when `remember` is truthy. */
  function LoginCookies(sessionId: string, email: string, remember: Value): (cs: seq<Cookie>)
    ensures |cs| >= 1 && cs[0] == Cookie("session_id", sessionId)
    ensures (exists i :: 0 <= i < |cs| && cs[i].name == "email") <==> Truthy(remember)
    ensures forall i :: 0 <= i < |cs| && cs[i].name == "email" ==> cs[i].value == email
  {
    var cs := [Cookie("session_id", sessionId)] + if Truthy(remember) then [Cookie("email", email)] else [];
    assert Truthy(remember) ==> cs[1].name == "email";
    assert cs[0].name != "email";
    cs
  }

  /** The session keys a successful login sets. */
  method RecordLogin(session: Session, user: UserProps)
    requires !session.destroyed
    modifies session
    ensures !session.destroyed
    ensures session.store == LoggedIn(old(session.store), user)
  {
    session.Set("isLoggedIn", Bool(true));
    session.Set("userId", Num(user.id));
    if user.isAdmin {
      session.Set("isAdmin", Bool(true));
    } else {
      session.Set("isAdmin", Bool(false));
    }
  }

  /** The cookies a successful login sets, in order. */
  method AddLoginCookies(res: Response, sessionId: string, email: string, remember: Value)
    requires res.sent == None
    modifies res
    ensures res.sent == None
    ensures res.cookies == old(res.cookies) + LoginCookies(sessionId, email, remember)
  {
    var sessionCookie := Cookie("session_id", sessionId);
    res.SetCookie(sessionCookie);
    if Truthy(remember) {
      var emailCookie := Cookie("email", email);
      res.SetCookie(emailCookie);
      assert res.cookies == old(res.cookies) + [sessionCookie, emailCookie];
    } else {
      assert res.cookies == old(res.cookies) + [sessionCookie];
    }
  }

  /** `login`. Without an email it answers BadRequest at once and consults
      nothing. Everything `User.login` throws lands in one `catch`: unknown
      credentials and a database error (`loginFails`) alike answer BadRequest
      "Invalid credentials." and set no session key. Otherwise it records the
      user in the session, adds the cookies and redirects to the poem list. */
  method LoginHandler(req: Request, res: Response, users: UserTable, loginFails: bool)
    requires res.sent == None && !req.session.destroyed
    modifies req.session, res
    ensures req.session.destroyed == old(req.session.destroyed)
    ensures !Truthy(req.Body("email")) ==>
              && res.sent == Some(Redirect(BadRequest, "no email", "/login?error=Email is required"))
              && req.session.store == old(req.session.store)
              && res.cookies == old(res.cookies)
    ensures Truthy(req.Body("email")) && (loginFails || users.Login(req.body["email"], req.Body("password")).Failure?) ==>
              && res.sent == Some(Redirect(BadRequest, "Invalid credentials.", "/login?error=Invalid credentials"))
              && req.session.store == old(req.session.store)
              && res.cookies == old(res.cookies)
    ensures Truthy(req.Body("email")) && !loginFails && users.Login(req.body["email"], req.Body("password")).Success? ==>
              var u := users.Login(req.body["email"], req.Body("password")).value;
              && res.sent == Some(Envelope(OK, "Logged in successfully!", Some("/poems"), None,
                                           Some(Obj(map["user" := AsValue(u)]))))
              && req.session.store == LoggedIn(old(req.session.store), u)
              && res.cookies == old(res.cookies) + LoginCookies(req.session.id, req.body["email"], req.Body("remember"))
  {
    var email := req.Body("email");
    if !Truthy(email) {
      res.Send(Redirect(BadRequest, "no email", "/login?error=Email is required"));
      return;
    }
    if loginFails {
      res.Send(Redirect(BadRequest, "Invalid credentials.", "/login?error=Invalid credentials"));
      return;
    }
    var found := users.Login(email.s, req.Body("password"));
    match found
    case Failure(_) =>
      res.Send(Redirect(BadRequest, "Invalid credentials.", "/login?error=Invalid credentials"));
    case Success(user) =>
      RecordLogin(req.session, user);
      AddLoginCookies(res, req.session.id, email.s, req.Body("remember"));
      res.Send(Envelope(OK, "Logged in successfully!", Some("/poems"), None,
                        Some(Obj(map["user" := AsValue(user)]))));
  }

  /** `logout`: the session is destroyed and the client sent home. */
  method LogoutHandler(req: Request, res: Response)
    requires res.sent == None
    modifies req.session, res
    ensures req.session.destroyed && req.session.store == map[]
    ensures res.sent == Some(Redirect(OK, "User logged out", "/"))
    ensures res.cookies == old(res.cookies)
  {
    req.session.Destroy();
    res.Send(Redirect(OK, "User logged out", "/"));
  }
}
