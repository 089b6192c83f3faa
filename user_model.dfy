/**
 * The user store: a JSON array of users read whole from disk, changed in
 * memory and written back whole. Email and phone uniqueness are checked on
 * creation only; removal is a soft delete that clears `isActive`.
 *
 * bcrypt is the parameter `hash`: a stored password is `hash(plain)`, and a
 * password is valid when it hashes to the stored value.
 */
module UserModel {
  import opened Common

  datatype User = User(id: string, name: string, email: string, phone: Option<string>, password: string,
                       createdAt: string, updatedAt: string, isActive: bool)

  /** A user as handed out: every field but the password. */
  datatype PublicUser = PublicUser(id: string, name: string, email: string, phone: Option<string>,
                                   createdAt: string, updatedAt: string, isActive: bool)

  /** `users.json`: a parsed array, or missing/garbage, which reads as no users. */
  datatype UsersFile = Readable(users: seq<User>) | Unreadable

  datatype NewUserData = NewUserData(name: string, email: string, password: string, phone: Option<string>)

  /** The fields an update supplies; absent ones keep their value. */
  datatype UpdateData = UpdateData(name: Option<string>, phone: Option<string>, password: Option<string>)

  /** `Date.now().toString()` and `new Date().toISOString()`. */
  datatype Clock = Clock(millis: nat, iso: string)

  /** The common tail of the two duplicate messages. */
  const TakenSuffix := "ya está registrado"
  const EmailTaken := "El email " + TakenSuffix
  const PhoneTaken := "El teléfono " + TakenSuffix
  const UserNotFound := "Usuario no encontrado"

  function ReadUsers(file: UsersFile): seq<User>
  {
    if file.Readable? then file.users else []
  }

  function WithoutPassword(u: User): (p: PublicUser)
    ensures p.id == u.id && p.email == u.email && p.isActive == u.isActive
  {
    PublicUser(u.id, u.name, u.email, u.phone, u.createdAt, u.updatedAt, u.isActive)
  }

  /** The different `find` callbacks of the model. */
  datatype Query = ByEmail(email: string) | ActiveByEmail(activeEmail: string) | ById(id: string)
                 | ActiveById(activeId: string) | ByPhone(phone: string)

  predicate Matches(u: User, q: Query)
  {
    match q
    case ByEmail(e) => u.email == e
    case ActiveByEmail(e) => u.email == e && u.isActive
    case ById(i) => u.id == i
    case ActiveById(i) => u.id == i && u.isActive
    case ByPhone(p) => u.phone == Some(p)
  }

  /** `findIndex`: the first match, or -1. */
  function FirstMatch(users: seq<User>, q: Query): (k: int)
    ensures -1 <= k < |users|
    ensures k == -1 <==> forall i :: 0 <= i < |users| ==> !Matches(users[i], q)
    ensures k >= 0 ==> Matches(users[k], q) && forall i :: 0 <= i < k ==> !Matches(users[i], q)
  {
    if users == [] then -1
    else if Matches(users[0], q) then 0
    else
      var k := FirstMatch(users[1..], q);
      if k == -1 then -1 else k + 1
  }

  /** `find`: the first match, if any. */
  function Find(users: seq<User>, q: Query): (r: Option<User>)
    ensures r.None? <==> forall i :: 0 <= i < |users| ==> !Matches(users[i], q)
    ensures r.Some? ==> r.value in users && Matches(r.value, q)
  {
    var k := FirstMatch(users, q);
    if k == -1 then None else Some(users[k])
  }

  // ---------------------------------------------------------------------------
  // The state transitions, as functions of the user list

  /** The record `create` appends. */
  function NewUser(data: NewUserData, hash: string -> string, clock: Clock): User
  {
    User(NatToString(clock.millis), data.name, data.email, data.phone, hash(data.password),
         clock.iso, clock.iso, true)
  }

  /** Why `create` refuses, if it does: the email check first, then the phone check. */
  function CreateRefusal(users: seq<User>, data: NewUserData): (e: Option<string>)
    ensures e == Some(EmailTaken) <==> Find(users, ByEmail(data.email)).Some?
    ensures e == Some(PhoneTaken) <==>
      Find(users, ByEmail(data.email)).None? && Truthy(data.phone) && Find(users, ByPhone(data.phone.value)).Some?
    ensures e.None? <==> (Find(users, ByEmail(data.email)).None?
                          && (!Truthy(data.phone) || Find(users, ByPhone(data.phone.value)).None?))
  {
    if Find(users, ByEmail(data.email)).Some? then Some(EmailTaken)
    else if Truthy(data.phone) && Find(users, ByPhone(data.phone.value)).Some? then Some(PhoneTaken)
    else None
  }

  /** The merge `{...user, ...updateData, updatedAt}`; a truthy new password is hashed first. */
  function Merge(u: User, d: UpdateData, hash: string -> string, now: string): (v: User)
    ensures v.id == u.id && v.email == u.email && v.createdAt == u.createdAt && v.isActive == u.isActive
    ensures v.name == (if d.name.Some? then d.name.value else u.name)
    ensures v.phone == (if d.phone.Some? then d.phone else u.phone)
    ensures Truthy(d.password) ==> v.password == hash(d.password.value)
    ensures d.password.None? ==> v.password == u.password
    ensures v.updatedAt == now
  {
    var pw := if Truthy(d.password) then hash(d.password.value) else if d.password.Some? then d.password.value else u.password;
    u.(name := if d.name.Some? then d.name.value else u.name,
       phone := if d.phone.Some? then d.phone else u.phone,
       password := pw,
       updatedAt := now)
  }

  /** The active users without their passwords, in file order. */
  function ActivePublic(users: seq<User>): (r: seq<PublicUser>)
    ensures |r| <= |users|
    ensures forall i :: 0 <= i < |r| ==> r[i].isActive
  {
    if users == [] then []
    else if users[0].isActive then [WithoutPassword(users[0])] + ActivePublic(users[1..])
    else ActivePublic(users[1..])
  }

  /** `bcrypt.compare`. */
  predicate PasswordMatches(plain: string, stored: string, hash: string -> string)
  {
    hash(plain) == stored
  }

  /** No two users share an email. */
  predicate UniqueEmails(users: seq<User>)
  {
    forall i, j :: 0 <= i < j < |users| ==> users[i].email != users[j].email
  }

  /** No two users share a non-empty phone. */
  predicate UniquePhones(users: seq<User>)
  {
    forall i, j :: 0 <= i < j < |users| && Truthy(users[i].phone) ==> users[i].phone != users[j].phone
  }

  // ---------------------------------------------------------------------------
  // Properties of the transitions

  /** A successful create keeps emails and phones unique. */
  lemma CreateKeepsUnique(users: seq<User>, data: NewUserData, hash: string -> string, clock: Clock)
    requires UniqueEmails(users) && UniquePhones(users)
    requires CreateRefusal(users, data).None?
    ensures UniqueEmails(users + [NewUser(data, hash, clock)])
    ensures UniquePhones(users + [NewUser(data, hash, clock)])
  {
    var after := users + [NewUser(data, hash, clock)];
    forall i, j | 0 <= i < j < |after| ensures after[i].email != after[j].email {
      if j == |users| {
        assert !Matches(users[i], ByEmail(data.email));
      }
    }
    forall i, j | 0 <= i < j < |after| && Truthy(after[i].phone) ensures after[i].phone != after[j].phone {
      if j == |users| && Truthy(data.phone) {
        assert !Matches(users[i], ByPhone(data.phone.value));
      }
    }
  }

  /** A deactivated user is gone from every lookup that filters on `isActive`, and from `findAll`. */
  lemma DeactivatedIsHidden(users: seq<User>, k: nat, now: string)
    requires k < |users|
    requires UniqueIds(users)
    ensures var after := users[k := users[k].(isActive := false, updatedAt := now)];
      Find(after, ActiveById(users[k].id)).None?
      && FirstMatch(after, ActiveByEmail(users[k].email)) != k
      && forall p :: p in ActivePublic(after) ==> p.id != users[k].id
  {
    var after := users[k := users[k].(isActive := false, updatedAt := now)];
    forall i | 0 <= i < |after| ensures !Matches(after[i], ActiveById(users[k].id)) {
      if i != k {
        assert users[i].id != users[k].id || i == k;
      }
    }
    ActivePublicExactlyActive(after);
    forall p | p in ActivePublic(after) ensures p.id != users[k].id {
      var u :| u in after && u.isActive && p == WithoutPassword(u);
      var i :| 0 <= i < |after| && after[i] == u;
      assert !Matches(after[i], ActiveById(users[k].id));
    }
  }

  /** No two users share an id (ids are creation times in milliseconds). */
  predicate UniqueIds(users: seq<User>)
  {
    forall i, j :: 0 <= i < j < |users| ==> users[i].id != users[j].id
  }

  /** `findAll` lists exactly the active users. */
  lemma {:induction false} ActivePublicExactlyActive(users: seq<User>)
    ensures forall u :: u in users && u.isActive ==> WithoutPassword(u) in ActivePublic(users)
    ensures forall p :: p in ActivePublic(users) ==> exists u :: u in users && u.isActive && p == WithoutPassword(u)
  {
    if users != [] {
      ActivePublicExactlyActive(users[1..]);
      forall p | p in ActivePublic(users) ensures exists u :: u in users && u.isActive && p == WithoutPassword(u) {
        if p in ActivePublic(users[1..]) {
          var u :| u in users[1..] && u.isActive && p == WithoutPassword(u);
          assert u in users;
        } else {
          assert p == WithoutPassword(users[0]);
        }
      }
      forall u | u in users && u.isActive ensures WithoutPassword(u) in ActivePublic(users) {
        if u != users[0] {
          assert u in users[1..];
        }
      }
    }
  }

  /**
   * An update never re-checks the phone: two users can end up sharing one, and
   * so the "ya está registrado" error that update callers handle never comes
   * out of `update`.
   */
  lemma UpdateCanDuplicatePhone(hash: string -> string)
    ensures var a := User("1", "Ana", "a@x.pe", Some("+51911111111"), "h", "t", "t", true);
      var b := User("2", "Beto", "b@x.pe", None, "h", "t", "t", true);
      var users := [a, b];
      UniquePhones(users)
      && !UniquePhones(users[1 := Merge(b, UpdateData(None, Some("+51911111111"), None), hash, "t2")])
  {
    var a := User("1", "Ana", "a@x.pe", Some("+51911111111"), "h", "t", "t", true);
    var b := User("2", "Beto", "b@x.pe", None, "h", "t", "t", true);
    var users := [a, b];
    var after := users[1 := Merge(b, UpdateData(None, Some("+51911111111"), None), hash, "t2")];
    assert after[0].phone == after[1].phone;
  }

  // ---------------------------------------------------------------------------
  // The store

  class UserStore {
    var file: UsersFile

    function Users(): seq<User>
      reads this
    {
      ReadUsers(file)
    }

    constructor (initial: UsersFile)
      ensures file == initial
    {
      file := initial;
    }

    /** `create(userData)`. */
    method Create(data: NewUserData, hash: string -> string, clock: Clock) returns (r: Result<PublicUser>)
      modifies this
      ensures CreateRefusal(old(Users()), data).Some? ==>
        r == Err(CreateRefusal(old(Users()), data).value) && file == old(file)
      ensures CreateRefusal(old(Users()), data).None? ==>
        file == Readable(old(Users()) + [NewUser(data, hash, clock)])
        && r == Ok(WithoutPassword(NewUser(data, hash, clock)))
      ensures r.Ok? ==> r.value.isActive && r.value.email == data.email
    {
      var users := ReadUsers(file);
      if Find(users, ByEmail(data.email)).Some? {
        return Err(EmailTaken);
      }
      if Truthy(data.phone) && Find(users, ByPhone(data.phone.value)).Some? {
        return Err(PhoneTaken);
      }
      var u := NewUser(data, hash, clock);
      file := Readable(users + [u]);
      r := Ok(WithoutPassword(u));
    }

    /** `findByEmail(email)`: active users only, password included. */
    method FindByEmail(email: string) returns (u: Option<User>)
      ensures u.Some? ==> u.value in Users() && u.value.email == email && u.value.isActive
      ensures u.None? <==> forall i :: 0 <= i < |Users()| ==> !(Users()[i].email == email && Users()[i].isActive)
      ensures u.Some? ==> u == Find(Users(), ActiveByEmail(email))
    {
      var users := ReadUsers(file);
      u := Find(users, ActiveByEmail(email));
    }

    /** `findById(id)`: active users only, password removed. */
    method FindById(id: string) returns (p: Option<PublicUser>)
      ensures p.Some? ==> exists u :: u in Users() && u.id == id && u.isActive && p.value == WithoutPassword(u)
      ensures p.None? <==> forall i :: 0 <= i < |Users()| ==> !(Users()[i].id == id && Users()[i].isActive)
    {
      var users := ReadUsers(file);
      var found := Find(users, ActiveById(id));
      if found.None? {
        return None;
      }
      p := Some(WithoutPassword(found.value));
    }

    /** `update(id, updateData)`: the first user with that id, active or not. */
    method Update(id: string, d: UpdateData, hash: string -> string, now: string) returns (r: Result<PublicUser>)
      modifies this
      ensures FirstMatch(old(Users()), ById(id)) == -1 ==> r == Err(UserNotFound) && file == old(file)
      ensures FirstMatch(old(Users()), ById(id)) >= 0 ==>
        var k := FirstMatch(old(Users()), ById(id));
        var v := Merge(old(Users())[k], d, hash, now);
        file == Readable(old(Users())[k := v]) && r == Ok(WithoutPassword(v))
    {
      var users := ReadUsers(file);
      var k := FirstMatch(users, ById(id));
      if k == -1 {
        return Err(UserNotFound);
      }
      var v := Merge(users[k], d, hash, now);
      file := Readable(users[k := v]);
      r := Ok(WithoutPassword(v));
    }

    /** `findAll()`. */
    method FindAll() returns (all: seq<PublicUser>)
      ensures all == ActivePublic(Users())
    {
      var users := ReadUsers(file);
      all := ActivePublic(users);
    }

    /** `deactivate(id)`: only the flag and the timestamp of the first user with that id change. */
    method Deactivate(id: string, now: string) returns (r: Result<bool>)
      modifies this
      ensures FirstMatch(old(Users()), ById(id)) == -1 ==> r == Err(UserNotFound) && file == old(file)
      ensures FirstMatch(old(Users()), ById(id)) >= 0 ==>
        var k := FirstMatch(old(Users()), ById(id));
        file == Readable(old(Users())[k := old(Users())[k].(isActive := false, updatedAt := now)]) && r == Ok(true)
    {
      var users := ReadUsers(file);
      var k := FirstMatch(users, ById(id));
      if k == -1 {
        return Err(UserNotFound);
      }
      file := Readable(users[k := users[k].(isActive := false, updatedAt := now)]);
      r := Ok(true);
    }
  }
}
