/**
 * The authentication controller: ordered validation chains in front of the
 * user store. The first failing guard decides the answer. Token signing is
 * the parameter `token` (user id to JWT); `hash` is bcrypt as in the store.
 */
module AuthController {
  import opened Common
  import Sms
  import opened UserModel

  datatype AuthData = AuthData(user: PublicUser, token: string)

  datatype Reply = Reply(status: nat, success: bool, message: string, data: Option<AuthData>)

  const MissingRegisterFields := "Nombre, email y contraseña son requeridos"
  const BadEmail := "Formato de email inválido"
  const BadPhone := "El teléfono debe tener formato +51 9XX XXX XXX"
  const ShortPassword := "La contraseña debe tener al menos 6 caracteres"
  const Registered := "Usuario registrado exitosamente"
  const InternalError := "Error interno del servidor"
  const MissingLoginFields := "Email y contraseña son requeridos"
  const BadCredentials := "Credenciales inválidas"
  const LoggedIn := "Login exitoso"
  const NothingToUpdate := "No hay datos para actualizar"
  const ProfileUpdated := "Perfil actualizado exitosamente"
  const MissingPasswords := "Contraseña actual y nueva contraseña son requeridas"
  const ShortNewPassword := "La nueva contraseña debe tener al menos 6 caracteres"
  const WrongCurrentPassword := "Contraseña actual incorrecta"
  const PasswordChanged := "Contraseña actualizada exitosamente"
  const AlreadyRegistered := TakenSuffix

  // ---------------------------------------------------------------------------
  // The email pattern /^[^\s@]+@[^\s@]+\.[^\s@]+$/

  /** A run of `[^\s@]+`. */
  predicate Part(s: string)
  {
    |s| > 0 && forall i :: 0 <= i < |s| ==> !IsSpace(s[i]) && s[i] != '@'
  }

  /** The pattern's meaning: local part, `@`, domain, `.`, suffix, none empty, none with whitespace or `@`. */
  ghost predicate EmailShape(s: string)
  {
    exists a, b, c :: Part(a) && Part(b) && Part(c) && s == a + "@" + b + "." + c
  }

  /** The email rule the controller applies: one `@` after a non-empty prefix, no whitespace, and a dot strictly inside the domain. */
  predicate ValidEmail(s: string)
  {
    exists k :: 0 < k < |s| && s[k] == '@' && EmailSplitAt(s, k)
  }

  predicate EmailSplitAt(s: string, k: nat)
    requires k < |s|
  {
    (forall i :: 0 <= i < |s| ==> !IsSpace(s[i]))
    && (forall i :: 0 <= i < |s| && i != k ==> s[i] != '@')
    && exists j :: k + 1 < j < |s| - 1 && s[j] == '.'
  }

  /** The executable check accepts exactly the strings of the pattern. */
  lemma ValidEmailIffShape(s: string)
    ensures ValidEmail(s) <==> EmailShape(s)
  {
    if ValidEmail(s) {
      var k :| 0 < k < |s| && s[k] == '@' && EmailSplitAt(s, k);
      var j :| k + 1 < j < |s| - 1 && s[j] == '.';
      var a, b, c := s[..k], s[k + 1..j], s[j + 1..];
      assert s == a + "@" + b + "." + c;
      assert Part(a) && Part(b) && Part(c);
    }
    if EmailShape(s) {
      var a, b, c :| Part(a) && Part(b) && Part(c) && s == a + "@" + b + "." + c;
      var k := |a|;
      var j := |a| + 1 + |b|;
      forall i | 0 <= i < |s| ensures !IsSpace(s[i]) && (i != k ==> s[i] != '@') {
        if i < k {
          assert s[i] == a[i];
        } else if k < i < j {
          assert s[i] == b[i - k - 1];
        } else if i > j {
          assert s[i] == c[i - j - 1];
        }
      }
      assert s[k] == '@' && s[j] == '.';
      assert EmailSplitAt(s, k);
    }
  }

  // ---------------------------------------------------------------------------
  // register

  datatype RegisterBody = RegisterBody(name: Option<string>, email: Option<string>,
                                       password: Option<string>, phone: Option<string>)

  /** The first failing register guard, in source order. */
  function RegisterRefusal(b: RegisterBody): (e: Option<string>)
    ensures e.None? <==>
      (Truthy(b.name) && Truthy(b.email) && Truthy(b.password) && ValidEmail(b.email.value)
       && (!Truthy(b.phone) || Sms.ValidPeruvianPhone(b.phone.value)) && |b.password.value| >= 6)
    ensures !(Truthy(b.name) && Truthy(b.email) && Truthy(b.password)) ==> e == Some(MissingRegisterFields)
    ensures Truthy(b.name) && Truthy(b.email) && Truthy(b.password) && !ValidEmail(b.email.value) ==> e == Some(BadEmail)
  {
    if !Truthy(b.name) || !Truthy(b.email) || !Truthy(b.password) then Some(MissingRegisterFields)
    else if !ValidEmail(b.email.value) then Some(BadEmail)
    else if Truthy(b.phone) && !Sms.ValidPeruvianPhone(b.phone.value) then Some(BadPhone)
    else if |b.password.value| < 6 then Some(ShortPassword)
    else None
  }

  /** A store error becomes 409 when its message says "ya está registrado", else 500. */
  function StoreFailure(message: string): (r: Reply)
    ensures Search(message, AlreadyRegistered) ==> r == Reply(409, false, message, None)
    ensures !Search(message, AlreadyRegistered) ==> r == Reply(500, false, InternalError, None)
  {
    if Search(message, AlreadyRegistered) then Reply(409, false, message, None)
    else Reply(500, false, InternalError, None)
  }

  /** `register`: guards, then `User.create`, answering 201 with the new user and its token. */
  method Register(store: UserStore, b: RegisterBody, hash: string -> string, token: string -> string, clock: Clock)
    returns (r: Reply)
    modifies store
    ensures RegisterRefusal(b).Some? ==> r == Reply(400, false, RegisterRefusal(b).value, None)
    ensures RegisterRefusal(b).Some? ==> store.file == old(store.file)
    ensures RegisterRefusal(b).None? ==>
      var data := NewUserData(b.name.value, b.email.value, b.password.value, b.phone);
      var refusal := CreateRefusal(old(store.Users()), data);
      (refusal.Some? ==> r == StoreFailure(refusal.value) && store.file == old(store.file))
      && (refusal.None? ==>
            store.file == Readable(old(store.Users()) + [NewUser(data, hash, clock)])
            && r.status == 201 && r.success && r.message == Registered
            && r.data == Some(AuthData(WithoutPassword(NewUser(data, hash, clock)), token(NatToString(clock.millis)))))
  {
    var refusal := RegisterRefusal(b);
    if refusal.Some? {
      return Reply(400, false, refusal.value, None);
    }
    var data := NewUserData(b.name.value, b.email.value, b.password.value, b.phone);
    var created := store.Create(data, hash, clock);
    if created.Err? {
      return StoreFailure(created.error);
    }
    r := Reply(201, true, Registered, Some(AuthData(created.value, token(created.value.id))));
  }

  /** The store's duplicate-email refusal is reported as 409. */
  lemma EmailTakenIsConflict()
    ensures StoreFailure(EmailTaken).status == 409
  {
    assert EmailTaken == "El email " + AlreadyRegistered + "";
    SearchFindsInfix("El email ", AlreadyRegistered, "");
  }

  /** The store's duplicate-phone refusal is reported as 409. */
  lemma PhoneTakenIsConflict()
    ensures StoreFailure(PhoneTaken).status == 409
  {
    assert PhoneTaken == "El teléfono " + AlreadyRegistered + "";
    SearchFindsInfix("El teléfono ", AlreadyRegistered, "");
  }

  // ---------------------------------------------------------------------------
  // login

  /** `login`: an unknown email and a wrong password give the same 401. */
  method Login(store: UserStore, email: Option<string>, password: Option<string>,
               hash: string -> string, token: string -> string)
    returns (r: Reply)
    ensures !(Truthy(email) && Truthy(password)) ==> r == Reply(400, false, MissingLoginFields, None)
    ensures Truthy(email) && Truthy(password) ==>
      var found := Find(store.Users(), ActiveByEmail(email.value));
      (found.None? || !PasswordMatches(password.value, found.value.password, hash) ==>
         r == Reply(401, false, BadCredentials, None))
      && (found.Some? && PasswordMatches(password.value, found.value.password, hash) ==>
         r == Reply(200, true, LoggedIn, Some(AuthData(WithoutPassword(found.value), token(found.value.id)))))
  {
    if !Truthy(email) || !Truthy(password) {
      return Reply(400, false, MissingLoginFields, None);
    }
    var user := store.FindByEmail(email.value);
    assert user == Find(store.Users(), ActiveByEmail(email.value));
    if user.None? {
      return Reply(401, false, BadCredentials, None);
    }
    if !PasswordMatches(password.value, user.value.password, hash) {
      return Reply(401, false, BadCredentials, None);
    }
    r := Reply(200, true, LoggedIn, Some(AuthData(WithoutPassword(user.value), token(user.value.id))));
  }

  // ---------------------------------------------------------------------------
  // updateProfile

  /** The update `updateProfile` builds from the body, or why it answers 400. */
  function ProfileUpdate(name: Option<string>, phone: Option<string>): (r: Result<UpdateData>)
    ensures Truthy(phone) && !Sms.ValidPeruvianPhone(phone.value) ==> r == Err(BadPhone)
    ensures !Truthy(name) && !Truthy(phone) ==> r == Err(NothingToUpdate)
    ensures r.Ok? ==> r.value.password.None?
    ensures r.Ok? ==> r.value.name == (if Truthy(name) then name else None)
    ensures r.Ok? ==> r.value.phone == (if Truthy(phone) then phone else None)
    ensures r.Ok? <==> (Truthy(name) || Truthy(phone)) && (!Truthy(phone) || Sms.ValidPeruvianPhone(phone.value))
  {
    var n := if Truthy(name) then name else None;
    if Truthy(phone) && !Sms.ValidPeruvianPhone(phone.value) then Err(BadPhone)
    else
      var p := if Truthy(phone) then phone else None;
      if n.None? && p.None? then Err(NothingToUpdate) else Ok(UpdateData(n, p, None))
  }

  datatype ProfileReply = ProfileReply(status: nat, success: bool, message: string, user: Option<PublicUser>)

  /** `updateProfile` for the authenticated user `userId`. */
  method UpdateProfile(store: UserStore, userId: string, name: Option<string>, phone: Option<string>,
                       hash: string -> string, now: string)
    returns (r: ProfileReply)
    modifies store
    ensures ProfileUpdate(name, phone).Err? ==>
      r == ProfileReply(400, false, ProfileUpdate(name, phone).error, None) && store.file == old(store.file)
    ensures ProfileUpdate(name, phone).Ok? && FirstMatch(old(store.Users()), ById(userId)) == -1 ==>
      r == ProfileReply(500, false, InternalError, None) && store.file == old(store.file)
    ensures ProfileUpdate(name, phone).Ok? && FirstMatch(old(store.Users()), ById(userId)) >= 0 ==>
      var k := FirstMatch(old(store.Users()), ById(userId));
      var v := Merge(old(store.Users())[k], ProfileUpdate(name, phone).value, hash, now);
      store.file == Readable(old(store.Users())[k := v])
      && r == ProfileReply(200, true, ProfileUpdated, Some(WithoutPassword(v)))
    ensures r.status != 409
  {
    var update := ProfileUpdate(name, phone);
    if update.Err? {
      return ProfileReply(400, false, update.error, None);
    }
    var updated := store.Update(userId, update.value, hash, now);
    if updated.Err? {
      NotFoundIsNotConflict();
      var failure := StoreFailure(updated.error);
      return ProfileReply(failure.status, false, failure.message, None);
    }
    r := ProfileReply(200, true, ProfileUpdated, Some(updated.value));
  }

  /** The only error `update` throws is not a conflict. */
  lemma NotFoundIsNotConflict()
    ensures StoreFailure(UserNotFound) == Reply(500, false, InternalError, None)
  {
    assert AlreadyRegistered[0] == 'y';
    forall i | 0 <= i < |UserNotFound| ensures UserNotFound[i] != 'y' {}
    SearchMissesAbsentChar(UserNotFound, AlreadyRegistered);
  }

  // ---------------------------------------------------------------------------
  // changePassword

  datatype PasswordReply = PasswordReply(status: nat, success: bool, message: string)

  /** Both passwords given and the new one long enough: the guards before the store is read. */
  predicate PasswordsWellFormed(current: Option<string>, next: Option<string>)
  {
    Truthy(current) && Truthy(next) && |next.value| >= 6
  }

  /** The active user with the token's email exists and the current password is theirs. */
  predicate CurrentPasswordConfirmed(users: seq<User>, userEmail: string, current: Option<string>, hash: string -> string)
    requires Truthy(current)
  {
    Find(users, ActiveByEmail(userEmail)).Some?
    && PasswordMatches(current.value, Find(users, ActiveByEmail(userEmail)).value.password, hash)
  }

  /**
   * `changePassword` for the authenticated user (`userId`, `userEmail`): the
   * current password is checked against the active user with the email, the
   * new one is hashed into the record with the id. Every answer but 200
   * leaves the file as it was.
   */
  method ChangePassword(store: UserStore, userId: string, userEmail: string,
                        current: Option<string>, next: Option<string>, hash: string -> string, now: string)
    returns (r: PasswordReply)
    modifies store
    ensures r.status != 200 ==> store.file == old(store.file)
    ensures !(Truthy(current) && Truthy(next)) ==> r == PasswordReply(400, false, MissingPasswords)
    ensures Truthy(current) && Truthy(next) && |next.value| < 6 ==> r == PasswordReply(400, false, ShortNewPassword)
    ensures PasswordsWellFormed(current, next) && Find(old(store.Users()), ActiveByEmail(userEmail)).None? ==>
      r == PasswordReply(500, false, InternalError)
    ensures r.status == 401 <==>
      (PasswordsWellFormed(current, next) && Find(old(store.Users()), ActiveByEmail(userEmail)).Some?
       && !CurrentPasswordConfirmed(old(store.Users()), userEmail, current, hash))
    ensures r.status == 401 ==> r.message == WrongCurrentPassword
    ensures PasswordsWellFormed(current, next) && CurrentPasswordConfirmed(old(store.Users()), userEmail, current, hash)
            && FirstMatch(old(store.Users()), ById(userId)) == -1 ==>
      r == PasswordReply(500, false, InternalError)
    ensures r.status == 200 <==>
      (PasswordsWellFormed(current, next) && CurrentPasswordConfirmed(old(store.Users()), userEmail, current, hash)
       && FirstMatch(old(store.Users()), ById(userId)) >= 0)
    ensures r.status == 200 ==>
      var k := FirstMatch(old(store.Users()), ById(userId));
      r == PasswordReply(200, true, PasswordChanged)
      && store.file == Readable(old(store.Users())[k := Merge(old(store.Users())[k], UpdateData(None, None, next), hash, now)])
  {
    if !Truthy(current) || !Truthy(next) {
      return PasswordReply(400, false, MissingPasswords);
    }
    if |next.value| < 6 {
      return PasswordReply(400, false, ShortNewPassword);
    }
    var withPassword := store.FindByEmail(userEmail);
    assert withPassword == Find(store.Users(), ActiveByEmail(userEmail));
    if withPassword.None? {
      // `userWithPassword.password` throws a TypeError
      return PasswordReply(500, false, InternalError);
    }
    if !PasswordMatches(current.value, withPassword.value.password, hash) {
      return PasswordReply(401, false, WrongCurrentPassword);
    }
    var updated := store.Update(userId, UpdateData(None, None, next), hash, now);
    if updated.Err? {
      return PasswordReply(500, false, InternalError);
    }
    r := PasswordReply(200, true, PasswordChanged);
  }

  /**
   * What a successful change leaves in the record with the id: the new password
   * now matches its stored hash, and the owner, email, name, phone and status
   * are those it had.
   */
  lemma ChangedPasswordMatches(users: seq<User>, k: nat, next: Option<string>, hash: string -> string, now: string)
    requires k < |users| && Truthy(next)
    ensures var v := Merge(users[k], UpdateData(None, None, next), hash, now);
      && PasswordMatches(next.value, v.password, hash)
      && v.id == users[k].id && v.email == users[k].email && v.name == users[k].name
      && v.phone == users[k].phone && v.isActive == users[k].isActive && v.updatedAt == now
  {
  }
}
