/** server/controllers/userController.js: adding, listing, reading,
    updating and deleting users. `bcrypt.hash` is the abstract `Hash`. */
module UserController {
  import opened Common
  import opened Models
  import opened Database

  /** `addUser`: an email already present is a Duplicate and adds nothing; a
      role outside the enum fails validation (500); otherwise exactly one
      user is added, holding `Hash(password)` and the schema defaults. */
  method AddUser(db: Store, name: string, email: string, password: string, role: Option<string>,
                 address: string) returns (status: Status, id: Id)
    requires db.Valid()
    modifies db
    ensures db.Valid()
    ensures db.products == old(db.products) && db.categories == old(db.categories)
    ensures db.suppliers == old(db.suppliers) && db.orders == old(db.orders)
    ensures status == Ok ==> id == old(db.nextId) && db.nextId == old(db.nextId) + 1
    ensures status != Ok ==> db.nextId == old(db.nextId)
    ensures UserEmailTaken(old(db.users), email, None) ==>
      status == Duplicate && db.users == old(db.users)
    ensures !UserEmailTaken(old(db.users), email, None) && ParseRole(role).None? ==>
      status == ServerError && db.users == old(db.users)
    ensures !UserEmailTaken(old(db.users), email, None) && ParseRole(role).Some? ==>
      && status == Ok && id !in old(db.users)
      && db.users == old(db.users)[id := NewUser(name, email, Hash(password), address, ParseRole(role).value)]
      && db.users[id].password == Digest(password)
  {
    id := 0;
    if UserEmailTaken(db.users, email, None) {
      return Duplicate, id;
    }
    var hashed := Hash(password);
    var parsed := ParseRole(role);
    if parsed.None? {
      return ServerError, id;
    }
    id := db.FreshId();
    db.users := db.users[id := NewUser(name, email, hashed, address, parsed.value)];
    status := Ok;
  }

  /** `getUsers`: every stored user (this listing does not drop the password). */
  method GetUsers(db: Store) returns (users: map<Id, User>)
    ensures users == db.users
  {
    users := db.users;
  }

  /** `getUser`: only the requester's own record, without the password. */
  method GetUser(db: Store, requester: Id, pathId: Id) returns (status: Status, user: Option<UserView>)
    ensures requester != pathId ==> status == Forbidden && user.None?
    ensures requester == pathId && requester !in db.users ==> status == NotFound && user.None?
    ensures requester == pathId && requester in db.users ==>
      status == Ok && user == Some(ViewOf(db.users[requester]))
    ensures user.Some? ==> status == Ok && pathId == requester
  {
    if requester != pathId {
      return Forbidden, None;
    }
    if requester !in db.users {
      return NotFound, None;
    }
    status, user := Ok, Some(ViewOf(db.users[requester]));
  }

  /** The password `updateUser` stores, AS WRITTEN: a truthy password is
      hashed; an empty one is falsy, so it is written to the record as it
      is; an absent one is dropped from the update. */
  function PasswordAfterUpdateAsWritten(stored: Secret, supplied: Option<string>): (r: Secret)
    ensures supplied.None? ==> r == stored
    ensures supplied.Some? && supplied.value != "" ==> r == Hash(supplied.value)
    ensures supplied == Some("") ==> r == Plain("")
  {
    match supplied
    case None => stored
    case Some(p) => if p != "" then Hash(p) else Plain(p)
  }

  /** As written, an empty password replaces the stored hash by the empty
      string, stored without hashing. */
  lemma EmptyPasswordReplacesHash(digestOf: string)
    ensures PasswordAfterUpdateAsWritten(Digest(digestOf), Some("")) == Plain("")
    ensures PasswordAfterUpdateAsWritten(Digest(digestOf), Some("")) != Digest(digestOf)
  {
  }

  /** The password `updateUser` is meant to store: re-hashed only when a
      non-empty password is supplied, otherwise left as it was. It never
      stores a supplied password in the clear. */
  function PasswordAfterUpdate(stored: Secret, supplied: Option<string>): (r: Secret)
    ensures r == stored || (supplied.Some? && supplied.value != "" && r == Hash(supplied.value))
    ensures supplied.Some? && supplied.value != "" ==> r == Digest(supplied.value)
    ensures r.Plain? ==> r == stored
  {
    match supplied
    case None => stored
    case Some(p) => if p != "" then Hash(p) else stored
  }

  /** The record after an update: supplied fields overwrite, absent ones are
      dropped from the update and keep their value. */
  function UpdatedUser(was: User, name: Option<string>, email: Option<string>,
                       password: Option<string>, address: Option<string>): (u: User)
    ensures u.role == was.role && u.profilePic == was.profilePic && u.cartData == was.cartData
    ensures u.name == (if name.Some? then name.value else was.name)
    ensures u.email == (if email.Some? then email.value else was.email)
    ensures u.address == (if address.Some? then address.value else was.address)
    ensures u.password == PasswordAfterUpdate(was.password, password)
  {
    User(
      if name.Some? then name.value else was.name,
      if email.Some? then email.value else was.email,
      PasswordAfterUpdate(was.password, password),
      was.profilePic,
      if address.Some? then address.value else was.address,
      was.role,
      was.cartData)
  }

  /** `updateUser`: an unknown id is NotFound; an email another user has is
      refused by the unique index (500); otherwise the record is updated and
      returned without its password. */
  method UpdateUser(db: Store, pathId: Id, name: Option<string>, email: Option<string>,
                    password: Option<string>, address: Option<string>)
    returns (status: Status, user: Option<UserView>)
    requires db.Valid()
    modifies db
    ensures db.Valid()
    ensures db.products == old(db.products) && db.categories == old(db.categories)
    ensures db.suppliers == old(db.suppliers) && db.orders == old(db.orders) && db.nextId == old(db.nextId)
    ensures pathId !in old(db.users) ==> status == NotFound && user.None? && db.users == old(db.users)
    ensures pathId in old(db.users) && email.Some? && UserEmailTaken(old(db.users), email.value, Some(pathId)) ==>
      status == ServerError && user.None? && db.users == old(db.users)
    ensures pathId in old(db.users) && !(email.Some? && UserEmailTaken(old(db.users), email.value, Some(pathId))) ==>
      var updated := UpdatedUser(old(db.users)[pathId], name, email, password, address);
      && status == Ok && db.users == old(db.users)[pathId := updated]
      && user == Some(ViewOf(updated))
  {
    if pathId !in db.users {
      return NotFound, None;
    }
    if email.Some? && UserEmailTaken(db.users, email.value, Some(pathId)) {
      return ServerError, None;
    }
    var updated := UpdatedUser(db.users[pathId], name, email, password, address);
    db.users := db.users[pathId := updated];
    status, user := Ok, Some(ViewOf(updated));
  }

  /** `deleteUser`: an unknown id is NotFound; otherwise the user is removed. */
  method DeleteUser(db: Store, id: Id) returns (status: Status)
    requires db.Valid()
    modifies db
    ensures db.Valid()
    ensures db.products == old(db.products) && db.categories == old(db.categories)
    ensures db.suppliers == old(db.suppliers) && db.orders == old(db.orders) && db.nextId == old(db.nextId)
    ensures id !in old(db.users) ==> status == NotFound && db.users == old(db.users)
    ensures id in old(db.users) ==> status == Ok && db.users == old(db.users) - {id}
  {
    if id !in db.users {
      return NotFound;
    }
    db.users := db.users - {id};
    status := Ok;
  }

  /** `deleteUser` as written: `findByIdAndDelete` runs, and a missing id
      reaches the 404 branch that throws (DeleteReplyAsWritten), so it is
      answered ServerError, never NotFound, with the store unchanged. */
  method DeleteUserAsWritten(db: Store, id: Id) returns (status: Status)
    requires db.Valid()
    modifies db
    ensures db.Valid()
    ensures db.products == old(db.products) && db.categories == old(db.categories)
    ensures db.suppliers == old(db.suppliers) && db.orders == old(db.orders) && db.nextId == old(db.nextId)
    ensures id !in old(db.users) ==>
      status == ServerError && db.users == old(db.users)
    ensures id in old(db.users) ==>
      status == Ok && db.users == old(db.users) - {id}
  {
    var deleted := id in db.users;
    db.users := db.users - {id};
    status := DeleteReplyAsWritten(deleted);
  }

  /** A password stored as a digest stays a digest through any update: the
      corrected update never puts a plaintext password in the record. */
  lemma {:induction false} UpdatesKeepPasswordsHashed(was: User, name: Option<string>, email: Option<string>,
                                                      password: Option<string>, address: Option<string>)
    requires was.password.Digest?
    ensures UpdatedUser(was, name, email, password, address).password.Digest?
  {
  }
}
