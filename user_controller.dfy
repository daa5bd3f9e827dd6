/** The user handlers: registration (`createUser`), the admin-only user list,
    delete and admin toggle, and the logged-in user's profile. */
module UserController {
  import opened Wrappers
  import opened JsValue
  import opened Http
  import opened UserModel
  import opened Persistence
  import opened Routes

  datatype Handler = CreateUser | UsersForm | GetUserProfile | DeleteUser | UserAsAdmin

  /** `registerRoutes`: the five routes in registration order. */
  function RegisterRoutes(): (table: seq<Route<Handler>>)
    ensures forall i, j :: 0 <= i < |table| && 0 <= j < |table| && i != j && table[i].verb == table[j].verb ==>
              table[i].pattern != table[j].pattern
  {
    [ Route(POST, ["", "users"], CreateUser),
      Route(GET, ["", "users"], UsersForm),
      Route(GET, ["", "users", ":id"], GetUserProfile),
      Route(DELETE, ["", "users", ":id"], DeleteUser),
      Route(PUT, ["", "users", ":id"], UserAsAdmin) ]
  }

  /** The static GET route `/users` comes before the GET route with an `:id`. */
  lemma StaticGetRouteFirst()
    ensures var table := RegisterRoutes();
            forall i, j ::
              (0 <= i < |table| && 0 <= j < |table| &&
               table[i].verb == GET && !HasParam(table[i].pattern) &&
               table[j].verb == GET && HasParam(table[j].pattern)) ==> i < j
  {
    var table := RegisterRoutes();
    assert !HasParam(table[1].pattern);
    assert IsParam(table[2].pattern[2]);
  }

  /** No entry shadows another: each is the first match for its own method
      and its pattern with every `:id` filled in. */
  lemma EveryRouteReachable(arg: string)
    requires arg != ""
    ensures var table := RegisterRoutes();
            forall i :: 0 <= i < |table| ==>
              FirstMatch(table, table[i].verb, Instantiate(table[i].pattern, arg)) == Some(i)
  {
    var table := RegisterRoutes();
    forall i | 0 <= i < |table|
      ensures FirstMatch(table, table[i].verb, Instantiate(table[i].pattern, arg)) == Some(i)
    {
      var path := Instantiate(table[i].pattern, arg);
      if i == 2 {
        assert !Selects(table[1], GET, path) by {
          assert |table[1].pattern| != |path|;
        }
      }
    }
  }

  /** So GET `/users` lists the users, not a profile. */
  lemma UsersFormReached()
    ensures Dispatch(RegisterRoutes(), GET, ["", "users"]) == Some(UsersForm)
  {
    var table := RegisterRoutes();
    var path := ["", "users"];
    assert !Selects(table[0], GET, path);
    assert Selects(table[1], GET, path) by {
      assert SegmentMatches(table[1].pattern[0], path[0]) && SegmentMatches(table[1].pattern[1], path[1]);
    }
  }

  /** And GET `/users/<x>` shows a profile for every non-empty `x`. */
  lemma UserProfileReached(x: string)
    requires x != ""
    ensures Dispatch(RegisterRoutes(), GET, ["", "users", x]) == Some(GetUserProfile)
  {
    var table := RegisterRoutes();
    var path := ["", "users", x];
    assert !Selects(table[0], GET, path);
    assert !Selects(table[1], GET, path) by {
      assert |table[1].pattern| != |path|;
    }
    assert Selects(table[2], GET, path) by {
      assert IsParam(table[2].pattern[2]);
      assert forall k :: 0 <= k < 3 ==> SegmentMatches(table[2].pattern[k], path[k]);
    }
  }

  /** The registration checks, in their fixed order: a missing email, then a
      missing password, then a confirmation that differs. The first that
      fails decides the BadRequest reply; None means all passed. */
  function CheckRegistration(email: Value, password: Value, confirm: Value): (r: Option<Envelope>)
    ensures r.None? <==> Truthy(email) && Truthy(password) && StrictEquals(password, confirm)
    ensures r.Some? ==> r.value.statusCode == BadRequest && r.value.redirect.Some?
    ensures !Truthy(email) ==>
              r == Some(Redirect(BadRequest, "Missing email.", "/register?error=Email is required"))
    ensures Truthy(email) && !Truthy(password) ==>
              r == Some(Redirect(BadRequest, "Missing password.", "/register?error=password empty"))
    ensures Truthy(email) && Truthy(password) && !StrictEquals(password, confirm) ==>
              r == Some(Redirect(BadRequest, "Passwords do not match", "/register?error=Passwords do not match"))
  {
    if !Truthy(email) then
      Some(Redirect(BadRequest, "Missing email.", "/register?error=Email is required"))
    else if !Truthy(password) then
      Some(Redirect(BadRequest, "Missing password.", "/register?error=password empty"))
    else if !StrictEquals(password, confirm) then
      Some(Redirect(BadRequest, "Passwords do not match", "/register?error=Passwords do not match"))
    else None
  }

  /** The reply to a registration that the table accepted. */
  function Registered(u: UserProps): Envelope {
    Envelope(Created, "User created", Some("/login"), None, Some(Obj(map["user" := AsValue(u)])))
  }

  /** `createUser`. A failed check or a refused insert creates nobody; an
      accepted one appends exactly one non-admin user and redirects to the
      login form. `dbError` is the text of an unexpected database error
      raised by `User.create`, if any. */
  method CreateUserHandler(req: Request, res: Response, table: UserTable, dbError: Option<string>)
    requires res.sent == None && table.Valid()
    modifies res, table
    ensures table.Valid() && res.cookies == old(res.cookies)
    ensures var check := CheckRegistration(req.Body("email"), req.Body("password"), req.Body("confirmPassword"));
            && (check.Some? ==> res.sent == check && table.users == old(table.users) && table.nextId == old(table.nextId))
            && (check.None? && dbError.Some? ==>
                  && res.sent == Some(Redirect(InternalServerError, "Error creating users, " + dbError.value,
                                               "/register?error=creating user"))
                  && table.users == old(table.users) && table.nextId == old(table.nextId))
            && (check.None? && dbError.None? && EmailTaken(old(table.users), req.body["email"]) ==>
                  && res.sent == Some(Redirect(BadRequest, "User with this email already exists.",
                                               "/register?error=email used"))
                  && table.users == old(table.users) && table.nextId == old(table.nextId))
            && (check.None? && dbError.None? && !EmailTaken(old(table.users), req.body["email"]) ==>
                  var u := UserProps(old(table.nextId), req.body["email"], req.body["password"], false);
                  && !u.isAdmin
                  && table.users == old(table.users) + [u]
                  && table.nextId == old(table.nextId) + 1
                  && res.sent == Some(Registered(u)))
  {
    var email, password := req.Body("email"), req.Body("password");
    var check := CheckRegistration(email, password, req.Body("confirmPassword"));
    if check.Some? {
      res.Send(check.value);
      return;
    }
    var props := NewUser(email.s, password.s, false);
    if dbError.Some? {
      res.Send(Redirect(InternalServerError, "Error creating users, " + dbError.value, "/register?error=creating user"));
      return;
    }
    var created := table.Create(props);
    match created
    case Failure(_) =>
      res.Send(Redirect(BadRequest, "User with this email already exists.", "/register?error=email used"));
    case Success(u) =>
      res.Send(Registered(u));
  }

  /** The admin gate of `deleteUser` and `userAsAdmin`: both `isAdmin` and
      `isLoggedIn` must be truthy. */
  predicate AdminSession(s: Session)
    reads s
  {
    Truthy(s.Get("isAdmin")) && Truthy(s.Get("isLoggedIn"))
  }

  /** `user?.props` of a read that may have found nobody. */
  function UserOrUndefined(u: Option<UserProps>): Value {
    match u
    case None => Undefined
    case Some(v) => AsValue(v)
  }

  /** `deleteUser`. Outside an admin session: Forbidden and no table
      operation. Otherwise the user with the path id (if any) is deleted and
      the client sent to the user list with a confirmation message.
      `readFails` and `deleteFails` say that the read or the delete raises a
      database error. A path id that is not a number (`/users/abc`) is no
      valid value for the integer `id` column, so its read raises too. No
      operation here hands out an id. */
  method DeleteUserHandler(req: Request, res: Response, table: UserTable, readFails: bool, deleteFails: bool)
    requires res.sent == None && table.Valid()
    modifies res, table
    ensures table.Valid() && res.cookies == old(res.cookies) && table.nextId == old(table.nextId)
    ensures !AdminSession(req.session) ==>
              res.sent == Some(Plain(Forbidden, "Unauthorized")) && table.users == old(table.users)
    ensures AdminSession(req.session) && (readFails || req.id.NaN? || (deleteFails && old(table.Read(req.id)).Some?)) ==>
              res.sent == Some(View(InternalServerError, "error deleting user", "ErrorFormView"))
              && table.users == old(table.users)
    ensures AdminSession(req.session) && !readFails && req.id.Num? && !(deleteFails && old(table.Read(req.id)).Some?) ==>
              var target := old(table.Read(req.id));
              && res.sent == Some(Envelope(OK, "User deleted", Some("/users?deleteMessage=User deleted successfully!"),
                                           None, Some(Obj(map["user" := UserOrUndefined(target)]))))
              && table.Read(req.id) == None
              && (target.Some? ==> table.users == RemoveId(old(table.users), target.value.id))
              && (target.None? ==> table.users == old(table.users))
  {
    if !AdminSession(req.session) {
      res.Send(Plain(Forbidden, "Unauthorized"));
      return;
    }
    if readFails || req.id.NaN? {
      res.Send(View(InternalServerError, "error deleting user", "ErrorFormView"));
      return;
    }
    var user := table.Read(req.id);
    if user.Some? {
      if deleteFails {
        res.Send(View(InternalServerError, "error deleting user", "ErrorFormView"));
        return;
      }
      var _ := table.Delete(user.value);
    }
    res.Send(Envelope(OK, "User deleted", Some("/users?deleteMessage=User deleted successfully!"),
                      None, Some(Obj(map["user" := UserOrUndefined(user)]))));
  }

  /** `users.map((user) => user.props)`. */
  function UserValues(users: seq<UserProps>): (r: seq<Value>)
    ensures |r| == |users| && forall i :: 0 <= i < |r| ==> r[i] == AsValue(users[i])
  {
    if users == [] then [] else [AsValue(users[0])] + UserValues(users[1..])
  }

  /** `usersForm`. Not logged in: Forbidden and back to the login form.
      Logged in but not admin: Forbidden with the admin view saying so.
      Otherwise every user, and the `deleteMessage` query parameter echoed
      as the message. */
  method UsersFormHandler(req: Request, res: Response, table: UserTable)
    requires res.sent == None && table.Valid()
    modifies res
    ensures res.cookies == old(res.cookies)
    ensures var loggedIn, admin := req.session.Get("isLoggedIn"), req.session.Get("isAdmin");
            && (!Truthy(loggedIn) ==> res.sent == Some(Redirect(Forbidden, "Unauthorized", "/login")))
            && (Truthy(loggedIn) && !Truthy(admin) ==>
                  res.sent == Some(Envelope(Forbidden, "Unauthorized", None, Some("AdminFormView"),
                                            Some(Obj(map["isAdmin" := Bool(false), "isLoggedIn" := loggedIn])))))
            && (Truthy(loggedIn) && Truthy(admin) ==>
                  res.sent == Some(Envelope(OK, "All users", None, Some("AdminFormView"),
                                            Some(Obj(map["users" := Arr(UserValues(table.ReadAll())),
                                                         "isLoggedIn" := loggedIn,
                                                         "message" := req.Search("deleteMessage"),
                                                         "isAdmin" := admin])))))
  {
    var loggedIn := req.session.Get("isLoggedIn");
    var admin := req.session.Get("isAdmin");
    var messageDelete := req.Search("deleteMessage");
    if !Truthy(loggedIn) {
      res.Send(Redirect(Forbidden, "Unauthorized", "/login"));
      return;
    }
    if !Truthy(admin) {
      res.Send(Envelope(Forbidden, "Unauthorized", None, Some("AdminFormView"),
                        Some(Obj(map["isAdmin" := Bool(false), "isLoggedIn" := loggedIn]))));
      return;
    }
    var users := table.ReadAll();
    res.Send(Envelope(OK, "All users", None, Some("AdminFormView"),
                      Some(Obj(map["users" := Arr(UserValues(users)), "isLoggedIn" := loggedIn,
                                   "message" := messageDelete, "isAdmin" := admin]))));
  }

  /** `getUserProfile`. Not logged in: Unauthorized and back to the login
      form, before any read. Otherwise the user's poems and likes are read
      (`poems` and `likes` are what those reads give) and the profile view
      lists the poems. */
  method GetUserProfileHandler(req: Request, res: Response, poems: Fetch<seq<Props>>, likes: Fetch<seq<Props>>)
    returns (calls: seq<DbCall>)
    requires res.sent == None
    modifies res
    ensures res.cookies == old(res.cookies)
    ensures var loggedIn, userId := req.session.Get("isLoggedIn"), req.session.Get("userId");
            && (!Truthy(loggedIn) ==>
                  res.sent == Some(Redirect(Unauthorized, "Unauthorized", "/login")) && calls == [])
            && (Truthy(loggedIn) && poems.Threw? ==>
                  && res.sent == Some(View(InternalServerError, "Error while getting poem list: " + poems.error, "ErrorFormView"))
                  && calls == [PoemReadAllOfUser(userId)])
            && (Truthy(loggedIn) && poems.Got? && likes.Threw? ==>
                  && res.sent == Some(View(InternalServerError, "Error while getting like list: " + likes.error, "ErrorFormView"))
                  && calls == [PoemReadAllOfUser(userId), LikeReadAllOfUser(userId)])
            && (Truthy(loggedIn) && poems.Got? && likes.Got? ==>
                  && res.sent == Some(Envelope(OK, "Your Profile", None, Some("ProfileView"),
                                               Some(Obj(map["createdPoems" := Arr(Objects(poems.value)),
                                                            "title" := Str("Your Profile"),
                                                            "isLoggedIn" := loggedIn, "userId" := userId]))))
                  && calls == [PoemReadAllOfUser(userId), LikeReadAllOfUser(userId)])
  {
    var loggedIn := req.session.Get("isLoggedIn");
    var userId := req.session.Get("userId");
    calls := [];
    if !Truthy(loggedIn) {
      res.Send(Redirect(Unauthorized, "Unauthorized", "/login"));
      return;
    }
    calls := calls + [PoemReadAllOfUser(userId)];
    if poems.Threw? {
      res.Send(View(InternalServerError, "Error while getting poem list: " + poems.error, "ErrorFormView"));
      return;
    }
    calls := calls + [LikeReadAllOfUser(userId)];
    if likes.Threw? {
      res.Send(View(InternalServerError, "Error while getting like list: " + likes.error, "ErrorFormView"));
      return;
    }
    res.Send(Envelope(OK, "Your Profile", None, Some("ProfileView"),
                      Some(Obj(map["createdPoems" := Arr(Objects(poems.value)), "title" := Str("Your Profile"),
                                   "isLoggedIn" := loggedIn, "userId" := userId]))));
  }

  /** `userAsAdmin`. Outside an admin session: Forbidden and no table
      operation. Otherwise the user with the path id (if any) has its admin
      flag flipped and the updated user is returned. `readFails` and
      `toggleFails` say that the read or the update raises a database error;
      as in `deleteUser`, the read of an id that is not a number raises. No
      operation here hands out an id. */
  method UserAsAdminHandler(req: Request, res: Response, table: UserTable, readFails: bool, toggleFails: bool)
    requires res.sent == None && table.Valid()
    modifies res, table
    ensures table.Valid() && res.cookies == old(res.cookies) && table.nextId == old(table.nextId)
    ensures !AdminSession(req.session) ==>
              res.sent == Some(Plain(Forbidden, "Unauthorized")) && table.users == old(table.users)
    ensures AdminSession(req.session) && (readFails || req.id.NaN?) ==>
              res.sent == Some(View(NoContent, "error deleting user", "ErrorFormView"))
              && table.users == old(table.users)
    ensures AdminSession(req.session) && !readFails && req.id.Num? && toggleFails && old(table.Read(req.id)).Some? ==>
              res.sent == Some(View(InternalServerError, "Error setting admin privileges.", "ErrorFormView"))
              && table.users == old(table.users)
    ensures AdminSession(req.session) && !readFails && req.id.Num? && old(table.Read(req.id)).None? ==>
              res.sent == Some(Envelope(OK, "User updated", None, None, Some(Obj(map["user" := Undefined]))))
              && table.users == old(table.users)
    ensures AdminSession(req.session) && !readFails && req.id.Num? && !toggleFails && old(table.Read(req.id)).Some? ==>
              var before := old(table.Read(req.id)).value;
              var after := before.(isAdmin := !before.isAdmin);
              && table.users == SetAdmin(old(table.users), before.id, !before.isAdmin)
              && table.Read(req.id) == Some(after)
              && res.sent == Some(Envelope(OK, "User updated", None, None, Some(Obj(map["user" := AsValue(after)]))))
  {
    if !AdminSession(req.session) {
      res.Send(Plain(Forbidden, "Unauthorized"));
      return;
    }
    if readFails || req.id.NaN? {
      res.Send(View(NoContent, "error deleting user", "ErrorFormView"));
      return;
    }
    var user := table.Read(req.id);
    if user.None? {
      res.Send(Envelope(OK, "User updated", None, None, Some(Obj(map["user" := Undefined]))));
      return;
    }
    if toggleFails {
      res.Send(View(InternalServerError, "Error setting admin privileges.", "ErrorFormView"));
      return;
    }
    var updated := table.ToggleAdmin(user.value);
    res.Send(Envelope(OK, "User updated", None, None, Some(Obj(map["user" := UserOrUndefined(updated)]))));
  }
}
