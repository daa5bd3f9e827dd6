/** The `users` table behind the `User` model class: `create` refuses a
    duplicate email, `read` gives `null` for an unknown id, `login` looks a
    user up by email and password, `toggleAdmin` flips the admin flag,
    `delete` removes the row, and `readAll` lists every row. The table is held
    in memory as the sequence of its rows in insertion order; ids are serial,
    starting at 1. */
module UserModel {
  import opened Wrappers
  import opened JsValue

  /** One row of the table, as `user.props` holds it. */
  datatype UserProps = UserProps(id: nat, email: string, password: string, isAdmin: bool)

  /** The props a caller hands to `User.create` (the id is assigned on insert). */
  datatype NewUser = NewUser(email: string, password: string, isAdmin: bool)

  /** The two errors the model throws on purpose. */
  datatype UserError = DuplicateEmail | InvalidCredentials

  /** `user.props` as a plain object, the way a payload carries it. */
  function AsValue(u: UserProps): Value {
    Obj(map["id" := Num(u.id), "email" := Str(u.email), "password" := Str(u.password),
            "isAdmin" := Bool(u.isAdmin)])
  }

  ghost predicate UniqueEmails(users: seq<UserProps>) {
    forall i, j :: 0 <= i < j < |users| ==> users[i].email != users[j].email
  }

  /** Serial ids: every row's id is larger than those of the rows inserted before it. */
  ghost predicate IdsAscending(users: seq<UserProps>) {
    forall i, j :: 0 <= i < j < |users| ==> users[i].id < users[j].id
  }

  /** `SELECT * FROM users WHERE email = ...` finds a row. */
  function EmailTaken(users: seq<UserProps>, email: string): (r: bool)
    ensures r <==> exists i :: 0 <= i < |users| && users[i].email == email
  {
    if users == [] then false
    else users[0].email == email || EmailTaken(users[1..], email)
  }

  /** `SELECT * FROM users WHERE id = ...`, first row. */
  function FindById(users: seq<UserProps>, id: int): (r: Option<UserProps>)
    ensures r.Some? ==> r.value in users && r.value.id == id
    ensures r.None? <==> forall i :: 0 <= i < |users| ==> users[i].id != id
  {
    if users == [] then None
    else if users[0].id == id then Some(users[0])
    else FindById(users[1..], id)
  }

  /** `SELECT * FROM users WHERE email = ... and password = ...`, first row.
      A password that is not a string matches no row. */
  function FindCredentials(users: seq<UserProps>, email: string, password: Value): (r: Option<UserProps>)
    ensures r.Some? ==> r.value in users && r.value.email == email && password == Str(r.value.password)
    ensures r.None? <==> forall i :: 0 <= i < |users| ==>
                           !(users[i].email == email && password == Str(users[i].password))
  {
    if users == [] then None
    else if users[0].email == email && password == Str(users[0].password) then Some(users[0])
    else FindCredentials(users[1..], email, password)
  }

  /** `DELETE FROM users WHERE id = ...`: the other rows stay, in order. */
  function RemoveId(users: seq<UserProps>, id: int): (r: seq<UserProps>)
    ensures |r| <= |users|
    ensures forall k :: 0 <= k < |r| ==> r[k].id != id
  {
    if users == [] then []
    else
      var rest := RemoveId(users[1..], id);
      if users[0].id == id then rest else [users[0]] + rest
  }

  /** `RemoveId` keeps exactly the rows with another id. */
  lemma {:induction false} RemoveIdMembers(users: seq<UserProps>, id: int)
    ensures forall u :: u in RemoveId(users, id) <==> u in users && u.id != id
  {
    if users != [] {
      RemoveIdMembers(users[1..], id);
      assert users == [users[0]] + users[1..];
    }
  }

  /** Rows whose ids all lie above a bound still do after `RemoveId`. */
  lemma {:induction false} RemoveIdAbove(users: seq<UserProps>, id: int, lo: int)
    requires forall i :: 0 <= i < |users| ==> lo < users[i].id
    ensures forall k :: 0 <= k < |RemoveId(users, id)| ==> lo < RemoveId(users, id)[k].id
  {
    if users != [] {
      var tail := users[1..];
      assert forall i :: 0 <= i < |tail| ==> tail[i] == users[i + 1];
      RemoveIdAbove(tail, id, lo);
    }
  }

  /** Rows that all avoid an email still do after `RemoveId`. */
  lemma {:induction false} RemoveIdAvoids(users: seq<UserProps>, id: int, email: string)
    requires forall i :: 0 <= i < |users| ==> users[i].email != email
    ensures forall k :: 0 <= k < |RemoveId(users, id)| ==> RemoveId(users, id)[k].email != email
  {
    if users != [] {
      var tail := users[1..];
      assert forall i :: 0 <= i < |tail| ==> tail[i] == users[i + 1];
      RemoveIdAvoids(tail, id, email);
    }
  }

  /** Removing rows keeps emails unique. */
  lemma {:induction false} RemoveIdKeepsUniqueEmails(users: seq<UserProps>, id: int)
    requires UniqueEmails(users)
    ensures UniqueEmails(RemoveId(users, id))
  {
    if users != [] {
      var tail := users[1..];
      var rest := RemoveId(tail, id);
      forall a, b | 0 <= a < b < |tail| ensures tail[a].email != tail[b].email {
        assert tail[a] == users[a + 1] && tail[b] == users[b + 1];
      }
      RemoveIdKeepsUniqueEmails(tail, id);
      if users[0].id != id {
        forall i | 0 <= i < |tail| ensures tail[i].email != users[0].email {
          assert tail[i] == users[i + 1];
        }
        RemoveIdAvoids(tail, id, users[0].email);
        var r := [users[0]] + rest;
        forall a, b | 0 <= a < b < |r| ensures r[a].email != r[b].email {
          assert r[b] == rest[b - 1];
          if a > 0 {
            assert r[a] == rest[a - 1];
          }
        }
      }
    }
  }

  /** Removing rows keeps ids ascending. */
  lemma {:induction false} RemoveIdKeepsIdsAscending(users: seq<UserProps>, id: int)
    requires IdsAscending(users)
    ensures IdsAscending(RemoveId(users, id))
  {
    if users != [] {
      var tail := users[1..];
      var rest := RemoveId(tail, id);
      forall a, b | 0 <= a < b < |tail| ensures tail[a].id < tail[b].id {
        assert tail[a] == users[a + 1] && tail[b] == users[b + 1];
      }
      RemoveIdKeepsIdsAscending(tail, id);
      if users[0].id != id {
        forall i | 0 <= i < |tail| ensures users[0].id < tail[i].id {
          assert tail[i] == users[i + 1];
        }
        RemoveIdAbove(tail, id, users[0].id);
        var r := [users[0]] + rest;
        forall a, b | 0 <= a < b < |r| ensures r[a].id < r[b].id {
          assert r[b] == rest[b - 1];
          if a > 0 {
            assert r[a] == rest[a - 1];
          }
        }
      }
    }
  }

  /** `UPDATE users SET is_admin = flag WHERE id = ...`: only that row's flag changes. */
  function SetAdmin(users: seq<UserProps>, id: int, flag: bool): (r: seq<UserProps>)
    ensures |r| == |users|
    ensures forall i :: 0 <= i < |r| ==>
              r[i] == if users[i].id == id then users[i].(isAdmin := flag) else users[i]
  {
    if users == [] then []
    else
      var head := if users[0].id == id then users[0].(isAdmin := flag) else users[0];
      [head] + SetAdmin(users[1..], id, flag)
  }

  /** A freshly inserted user can log in with the credentials it was created
      with, and `login` finds that very row, because no earlier row has its email. */
  lemma {:induction false} LoginAfterCreate(users: seq<UserProps>, u: UserProps)
    requires UniqueEmails(users + [u])
    ensures FindCredentials(users + [u], u.email, Str(u.password)) == Some(u)
  {
    if users != [] {
      assert (users + [u])[1..] == users[1..] + [u];
      assert users[0].email != u.email by {
        assert (users + [u])[0] == users[0] && (users + [u])[|users|] == u;
      }
      forall i, j | 0 <= i < j < |users[1..] + [u]|
        ensures (users[1..] + [u])[i].email != (users[1..] + [u])[j].email
      {
        assert (users[1..] + [u])[i] == (users + [u])[i + 1];
        assert (users[1..] + [u])[j] == (users + [u])[j + 1];
      }
      LoginAfterCreate(users[1..], u);
    }
  }

  /** Deleting one id leaves what `read` gives for every other id unchanged. */
  lemma {:induction false} RemoveIdKeepsOthers(users: seq<UserProps>, id: int, other: int)
    requires other != id
    ensures FindById(RemoveId(users, id), other) == FindById(users, other)
  {
    if users != [] {
      RemoveIdKeepsOthers(users[1..], id, other);
      if users[0].id != id {
        assert ([users[0]] + RemoveId(users[1..], id))[1..] == RemoveId(users[1..], id);
      }
    }
  }

  /** Setting the flag back to what it was restores the table: two toggles of
      the same user are the identity. */
  lemma {:induction false} SetAdminTwice(users: seq<UserProps>, id: int, flag: bool)
    requires forall i :: 0 <= i < |users| && users[i].id == id ==> users[i].isAdmin == flag
    ensures SetAdmin(SetAdmin(users, id, !flag), id, flag) == users
  {
    var once := SetAdmin(users, id, !flag);
    var twice := SetAdmin(once, id, flag);
    forall i | 0 <= i < |users| ensures twice[i] == users[i] {
      if users[i].id == id {
        assert once[i] == users[i].(isAdmin := !flag);
      }
    }
  }

  /** Emails are unique and ids are serial, below the next id to hand out. */
  ghost predicate WellFormed(users: seq<UserProps>, nextId: nat) {
    && UniqueEmails(users)
    && IdsAscending(users)
    && nextId >= 1
    && (forall i :: 0 <= i < |users| ==> 1 <= users[i].id < nextId)
  }

  /** The `users` table. */
  class UserTable {
    var users: seq<UserProps>
    var nextId: nat

    ghost predicate Valid()
      reads this
    {
      WellFormed(users, nextId)
    }

    constructor ()
      ensures Valid() && users == [] && nextId == 1
    {
      users := [];
      nextId := 1;
    }

    /** `User.create`: a duplicate email throws DuplicateEmailError and
        inserts nothing; otherwise exactly one row is appended. */
    method Create(props: NewUser) returns (r: Result<UserProps, UserError>)
      requires Valid()
      modifies this
      ensures Valid()
      ensures r.Failure? <==> EmailTaken(old(users), props.email)
      ensures r.Failure? ==> r.error == DuplicateEmail && users == old(users) && nextId == old(nextId)
      ensures r.Success? ==>
                && r.value == UserProps(old(nextId), props.email, props.password, props.isAdmin)
                && users == old(users) + [r.value]
                && nextId == old(nextId) + 1
    {
      if EmailTaken(users, props.email) {
        return Failure(DuplicateEmail);
      }
      var row := UserProps(nextId, props.email, props.password, props.isAdmin);
      users := users + [row];
      nextId := nextId + 1;
      r := Success(row);
    }

    /** `User.read`: the row with that id, or `null` when there is none
        (an id that is not a number matches no row). */
    function Read(id: Value): (r: Option<UserProps>)
      reads this
      ensures r.Some? ==> r.value in users && id == Num(r.value.id)
      ensures r.None? <==> forall i :: 0 <= i < |users| ==> id != Num(users[i].id)
    {
      if id.Num? then FindById(users, id.n) else None
    }

    /** `User.readAll`: every row, in the order the rows were created. */
    function ReadAll(): (r: seq<UserProps>)
      reads this
      requires Valid()
      ensures forall u :: u in r <==> u in users
      ensures forall i, j :: 0 <= i < j < |r| ==> r[i].id < r[j].id
    {
      users
    }

    /** `User.login`: a row whose email and password both match, or
        InvalidCredentialsError when there is none. */
    function Login(email: string, password: Value): (r: Result<UserProps, UserError>)
      reads this
      ensures r.Success? ==> r.value in users && r.value.email == email && password == Str(r.value.password)
      ensures r.Failure? ==>
                && r.error == InvalidCredentials
                && forall i :: 0 <= i < |users| ==> !(users[i].email == email && password == Str(users[i].password))
    {
      match FindCredentials(users, email, password)
      case Some(u) => Success(u)
      case None => Failure(InvalidCredentials)
    }

    /** `user.delete()`: removes the user's row and answers true; `read` of
        that id is `null` afterwards and every other row is kept. */
    method Delete(user: UserProps) returns (ok: bool)
      requires Valid()
      modifies this
      ensures Valid() && nextId == old(nextId)
      ensures ok
      ensures users == RemoveId(old(users), user.id)
      ensures Read(Num(user.id)) == None
      ensures forall u :: u in old(users) && u.id != user.id ==> u in users
    {
      RemoveIdMembers(users, user.id);
      RemoveIdKeepsWellFormed(users, nextId, user.id);
      users := RemoveId(users, user.id);
      ok := true;
    }

    /** `user.toggleAdmin()`: the row gets the opposite of the flag the
        instance holds, and the instance's new props are the updated row
        (`None` when the row no longer exists). No other row changes. */
    method ToggleAdmin(user: UserProps) returns (r: Option<UserProps>)
      requires Valid()
      modifies this
      ensures Valid() && nextId == old(nextId)
      ensures users == SetAdmin(old(users), user.id, !user.isAdmin)
      ensures r == FindById(users, user.id)
      ensures r == match old(FindById(users, user.id))
                   case None => None
                   case Some(u) => Some(u.(isAdmin := !user.isAdmin))
    {
      var flag := !user.isAdmin;
      var updated := SetAdmin(users, user.id, flag);
      SetAdminKeepsWellFormed(users, nextId, user.id, flag);
      FindByIdAfterSetAdmin(users, user.id, flag);
      r := FindById(updated, user.id);
      users := updated;
    }
  }

  /** `SetAdmin` touches no id and no email, so it keeps the table invariant. */
  lemma SetAdminKeepsWellFormed(users: seq<UserProps>, nextId: nat, id: int, flag: bool)
    requires WellFormed(users, nextId)
    ensures WellFormed(SetAdmin(users, id, flag), nextId)
  {
    var r := SetAdmin(users, id, flag);
    assert forall i :: 0 <= i < |r| ==> r[i].id == users[i].id && r[i].email == users[i].email;
  }

  /** Removing rows keeps the table invariant. */
  lemma RemoveIdKeepsWellFormed(users: seq<UserProps>, nextId: nat, id: int)
    requires WellFormed(users, nextId)
    ensures WellFormed(RemoveId(users, id), nextId)
  {
    RemoveIdKeepsUniqueEmails(users, id);
    RemoveIdKeepsIdsAscending(users, id);
    RemoveIdMembers(users, id);
    var r := RemoveId(users, id);
    forall k | 0 <= k < |r| ensures 1 <= r[k].id < nextId {
      assert r[k] in users;
    }
  }

  /** After `SetAdmin`, reading the id gives the old row with the new flag. */
  lemma {:induction false} FindByIdAfterSetAdmin(users: seq<UserProps>, id: int, flag: bool)
    ensures FindById(SetAdmin(users, id, flag), id) ==
            match FindById(users, id) case None => None case Some(u) => Some(u.(isAdmin := flag))
  {
    if users != [] {
      FindByIdAfterSetAdmin(users[1..], id, flag);
      assert SetAdmin(users, id, flag)[1..] == SetAdmin(users[1..], id, flag);
    }
  }
}
