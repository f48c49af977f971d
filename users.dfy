/** The user collection of src/controllers/userController.js: create with required-field
    validation and email uniqueness, get by id, update of name, email and address, and
    physical delete, over the collection held as a map. */
module Users {
  import opened Common

  /** A stored user. `password` is the stored secret; its hashing is not modelled. */
  datatype User = User(
    name: string,
    email: string,
    password: string,
    phone: Option<string>,
    address: Option<string>,
    role: string)

  const DefaultRole: string := "customer"
  const AdminRole: string := "admin"
  const UserNotFound: Failure := Failure(404, "Usuário não encontrado")

  /** Some stored user has this email (`User.findOne({ email })` finds one). */
  predicate EmailTaken(users: map<Id, User>, email: string)
  {
    exists id :: id in users && users[id].email == email
  }

  /** No two stored users share an email. */
  ghost predicate UniqueEmails(users: map<Id, User>)
  {
    forall a, b :: a in users && b in users && users[a].email == users[b].email ==> a == b
  }

  /** Inserting a user whose email is not yet taken keeps emails unique. */
  lemma InsertKeepsUniqueEmails(users: map<Id, User>, id: Id, u: User)
    requires UniqueEmails(users) && id !in users && !EmailTaken(users, u.email)
    ensures UniqueEmails(users[id := u])
  {
  }

  /** The fields `updateUser` writes: those present in the body. */
  function WithProfile(u: User, name: Option<string>, email: Option<string>, address: Option<string>): User
  {
    u.(name := if name.Some? then name.value else u.name,
       email := if email.Some? then email.value else u.email,
       address := if address.Some? then address else u.address)
  }

  /** updateUser never touches the password, phone or role. */
  lemma WithProfileKeepsCredentials(u: User, name: Option<string>, email: Option<string>, address: Option<string>)
    ensures var v := WithProfile(u, name, email, address);
      v.password == u.password && v.phone == u.phone && v.role == u.role
  {
  }

  class UserStore {
    var users: map<Id, User>

    constructor ()
      ensures users == map[]
    {
      users := map[];
    }

    /** createUser: name, email and password are required (400); an email already
        stored answers 400; otherwise the user is stored as given. `newId` is the id
        the database assigns. */
    method CreateUser(name: Option<string>, email: Option<string>, password: Option<string>,
                      address: Option<string>, newId: Id)
      returns (res: Result<User>)
      requires newId !in users
      modifies this
      ensures !(Present(name) && Present(email) && Present(password)) ==>
        res == Err(Failure(400, "Nome, email e senha são obrigatórios")) && users == old(users)
      ensures Present(name) && Present(email) && Present(password) && EmailTaken(old(users), email.value) ==>
        res == Err(Failure(400, "Usuário já existe com este email")) && users == old(users)
      ensures Present(name) && Present(email) && Present(password) && !EmailTaken(old(users), email.value) ==>
        && users == old(users)[newId := User(name.value, email.value, password.value, None, address, DefaultRole)]
        && res == Created(users[newId])
      ensures UniqueEmails(old(users)) ==> UniqueEmails(users)
    {
      if !(Present(name) && Present(email) && Present(password)) {
        res := Err(Failure(400, "Nome, email e senha são obrigatórios"));
        return;
      }
      if EmailTaken(users, email.value) {
        res := Err(Failure(400, "Usuário já existe com este email"));
        return;
      }
      var u := User(name.value, email.value, password.value, None, address, DefaultRole);
      if UniqueEmails(users) {
        InsertKeepsUniqueEmails(users, newId, u);
      }
      users := users[newId := u];
      res := Created(u);
    }

    /** getAllUsers: every stored user. */
    method GetAllUsers() returns (r: map<Id, User>)
      ensures r.Keys == users.Keys && forall id :: id in r ==> r[id] == users[id]
    {
      r := users;
    }

    /** getUserById: 404 for an absent id. */
    method GetUserById(id: Id) returns (res: Result<User>)
      ensures id in users ==> res == Ok(users[id])
      ensures id !in users ==> res == Err(UserNotFound)
    {
      if id in users {
        res := Ok(users[id]);
      } else {
        res := Err(UserNotFound);
      }
    }

    /** updateUser: writes the name, email and address the body carries; 404 for an
        absent id. Email uniqueness is not checked here. */
    method UpdateUser(id: Id, name: Option<string>, email: Option<string>, address: Option<string>)
      returns (res: Result<User>)
      modifies this
      ensures id !in old(users) ==> res == Err(UserNotFound) && users == old(users)
      ensures id in old(users) ==>
        users == old(users)[id := WithProfile(old(users)[id], name, email, address)] && res == Ok(users[id])
      ensures UniqueEmails(old(users)) && (email.Some? ==> forall other :: other in old(users) && other != id ==> old(users)[other].email != email.value)
        ==> UniqueEmails(users)
    {
      if id !in users {
        res := Err(UserNotFound);
      } else {
        users := users[id := WithProfile(users[id], name, email, address)];
        res := Ok(users[id]);
      }
    }

    /** deleteUser: removes the user; 404 for an absent id. */
    method DeleteUser(id: Id) returns (res: Result<string>)
      modifies this
      ensures id !in old(users) ==> res == Err(UserNotFound) && users == old(users)
      ensures id in old(users) ==> users == old(users) - {id} && res == Ok("Usuário deletado com sucesso")
      ensures UniqueEmails(old(users)) ==> UniqueEmails(users)
    {
      if id !in users {
        res := Err(UserNotFound);
      } else {
        users := users - {id};
        res := Ok("Usuário deletado com sucesso");
      }
    }
  }

  /** Once a user is stored its email counts as taken, so a second createUser or
      register with that email is refused and stores nothing. */
  lemma StoredEmailIsTaken(users: map<Id, User>, id: Id, u: User, email: string)
    requires u.email == email
    ensures EmailTaken(users[id := u], email)
  {
    assert users[id := u][id].email == email;
  }
}
