/** Registration and login of src/controllers/authController.js. Signing a
    credential, verifying one and comparing a password with the stored secret are
    function parameters. */
module Accounts {
  import opened Common
  import opened Users
  import opened Guard

  const MissingFieldsMessage: string := "Todos os campos são obrigatórios: name, email, password, phone"
  const DuplicateEmailMessage: string := "Usuário já existe com este email"
  const MissingCredentialsMessage: string := "Email e senha são obrigatórios"
  const BadCredentialsMessage: string := "Email ou senha inválidos"

  /** `generateToken(id)`: a credential whose payload is `{ id }`. */
  function GenerateToken(sign: Claims -> Token, id: Id): (t: Token)
  {
    sign(map["id" := id])
  }

  /** The user fields a response shows: never the password. */
  datatype PublicUser = PublicUser(id: Id, name: string, email: string, phone: Option<string>, role: string)

  function PublicView(id: Id, u: User): (p: PublicUser)
  {
    PublicUser(id, u.name, u.email, u.phone, u.role)
  }

  datatype Registration = Registration(user: PublicUser, token: Token)

  datatype Session = Session(user: PublicUser, address: Option<string>, token: Token)

  /** The four fields `register` requires are all present. */
  predicate RegistrationComplete(name: Option<string>, email: Option<string>,
                                 password: Option<string>, phone: Option<string>)
  {
    Present(name) && Present(email) && Present(password) && Present(phone)
  }

  /** `register`: all four of name, email, password and phone are required (400); an
      email already stored answers 400; otherwise the user is stored with the default
      role and the 201 answer carries its public fields and a credential bound to
      its id. `newId` is the id the database assigns. */
  method Register(store: UserStore, name: Option<string>, email: Option<string>,
                  password: Option<string>, phone: Option<string>, newId: Id, sign: Claims -> Token)
    returns (res: Result<Registration>)
    requires newId !in store.users
    modifies store
    ensures !RegistrationComplete(name, email, password, phone) ==>
      res == Err(Failure(400, MissingFieldsMessage)) && store.users == old(store.users)
    ensures RegistrationComplete(name, email, password, phone) && EmailTaken(old(store.users), email.value) ==>
      res == Err(Failure(400, DuplicateEmailMessage)) && store.users == old(store.users)
    ensures RegistrationComplete(name, email, password, phone) && !EmailTaken(old(store.users), email.value) ==>
      && store.users == old(store.users)[newId := User(name.value, email.value, password.value, phone, None, DefaultRole)]
      && res == Created(Registration(PublicView(newId, store.users[newId]), GenerateToken(sign, newId)))
    ensures UniqueEmails(old(store.users)) ==> UniqueEmails(store.users)
  {
    if !RegistrationComplete(name, email, password, phone) {
      res := Err(Failure(BadRequest, MissingFieldsMessage));
      return;
    }
    if EmailTaken(store.users, email.value) {
      res := Err(Failure(BadRequest, DuplicateEmailMessage));
      return;
    }
    var u := User(name.value, email.value, password.value, phone, None, DefaultRole);
    if UniqueEmails(store.users) {
      InsertKeepsUniqueEmails(store.users, newId, u);
    }
    store.users := store.users[newId := u];
    res := Created(Registration(PublicView(newId, u), GenerateToken(sign, newId)));
  }

  /** `login`: email and password are required (400). `User.findOne({ email })` picks a
      user with that email; login succeeds only when one exists and the password check
      passes, and both failures give the same 401. */
  method Login(users: map<Id, User>, email: Option<string>, password: Option<string>,
               checkPassword: (string, string) -> bool, sign: Claims -> Token)
    returns (res: Result<Session>)
    ensures !(Present(email) && Present(password)) ==> res == Err(Failure(400, MissingCredentialsMessage))
    ensures res.Ok? ==> exists id :: (id in users
      && users[id].email == email.value && checkPassword(users[id].password, password.value)
      && res.value == Session(PublicView(id, users[id]), users[id].address, GenerateToken(sign, id)))
    ensures res.Err? && Present(email) && Present(password) ==> res.failure == Failure(401, BadCredentialsMessage)
    ensures Present(email) && Present(password) && !EmailTaken(users, email.value) ==>
      res == Err(Failure(401, BadCredentialsMessage))
    ensures Present(email) && Present(password) && UniqueEmails(users) ==>
      (res.Ok? <==> exists id :: id in users && users[id].email == email.value
                                 && checkPassword(users[id].password, password.value))
  {
    if !(Present(email) && Present(password)) {
      res := Err(Failure(BadRequest, MissingCredentialsMessage));
      return;
    }
    if !EmailTaken(users, email.value) {
      res := Err(Failure(Unauthorized, BadCredentialsMessage));
      return;
    }
    var id :| id in users && users[id].email == email.value;
    if checkPassword(users[id].password, password.value) {
      res := Ok(Session(PublicView(id, users[id]), users[id].address, GenerateToken(sign, id)));
    } else {
      res := Err(Failure(Unauthorized, BadCredentialsMessage));
    }
  }

  /** A credential from `generateToken` that the verifier accepts passes `auth` with
      the payload `{ id }`, which is what `adminAuth` then looks up. */
  lemma GeneratedTokenAuthenticates(sign: Claims -> Token, verify: Token -> Option<Claims>, id: Id)
    requires verify(GenerateToken(sign, id)) == Some(map["id" := id])
    requires GenerateToken(sign, id) != ""
    ensures Auth(Some(BearerPrefix + GenerateToken(sign, id)), verify) == Next(map["id" := id])
  {
    AuthAcceptsVerifiedBearer(GenerateToken(sign, id), map["id" := id], verify);
  }

  /** A user who registered (role 'customer') is refused by `adminAuth` with 403. */
  lemma RegisteredUserIsNotAdmin(users: map<Id, User>, id: Id, u: User)
    requires u.role == DefaultRole
    ensures AdminAuth(map["id" := id], users[id := u], false) == Fail(Failure(403, AdminOnlyMessage))
  {
  }
}
