/**
  Users: the schema (a required, unique e-mail that must contain an address; a
  required, unique name; a required password of at least eight characters),
  the pre-save hook that hashes the password of a new user, the projection that
  hides the secrets, and the `dreams` virtual.
 */
module Users {
  import opened Store
  import JsText
  import Email
  import Dreams

  /** A user document. `lastConnection` and the timestamps are not modelled. */
  datatype User = User(
    email: Option<string>,
    name: Option<string>,
    password: Option<string>,
    description: Option<string>,
    avatar: Option<string>,
    refreshToken: Option<string>)

  /** `minlength: 8`, counted as JavaScript counts `length`. */
  const MinPassword: nat := 8

  predicate Acceptable(u: User) {
    && Filled(u.email) && Email.IsEmail(u.email.value)
    && Filled(u.name)
    && Filled(u.password) && JsText.Utf16Length(u.password.value) >= MinPassword
  }

  /** The ValidationError paths and messages of a user document; on each path the
      `required` rule is tried before the other one. */
  function Validate(u: User): (e: Errors)
    ensures e == map[] <==> Acceptable(u)
    ensures e.Keys <= {"email", "name", "password"}
    ensures !Filled(u.email) ==> "email" in e && e["email"] == Message("Email is required")
    ensures Filled(u.email) ==>
              ("email" in e <==> !Email.IsEmail(u.email.value))
              && ("email" in e ==> e["email"] == Message("Invalid email"))
    ensures "name" in e <==> !Filled(u.name)
    ensures "name" in e ==> e["name"] == Message("Name is required")
    ensures !Filled(u.password) ==> "password" in e && e["password"] == Message("Password is required")
    ensures Filled(u.password) ==>
              ("password" in e <==> JsText.Utf16Length(u.password.value) < MinPassword)
              && ("password" in e ==> e["password"] == Message("Password is too small"))
  {
    (if !Filled(u.email) then Require(false, "email", "Email is required")
     else Require(Email.IsEmail(u.email.value), "email", "Invalid email"))
    + Require(Filled(u.name), "name", "Name is required")
    + (if !Filled(u.password) then Require(false, "password", "Password is required")
       else Require(JsText.Utf16Length(u.password.value) >= MinPassword, "password", "Password is too small"))
  }

  /** A password of eight characters or more always meets `minlength`; one of fewer
      code units never does. A password of four characters outside the Basic
      Multilingual Plane is eight code units long and passes. */
  lemma PasswordLength(p: string)
    ensures |p| >= MinPassword ==> JsText.Utf16Length(p) >= MinPassword
    ensures (forall k | 0 <= k < |p| :: p[k] as int <= 0xFFFF) ==>
              (JsText.Utf16Length(p) >= MinPassword <==> |p| >= MinPassword)
    ensures |p| == 4 && (forall k | 0 <= k < |p| :: p[k] as int > 0xFFFF) ==>
              JsText.Utf16Length(p) >= MinPassword
  {
    JsText.Utf16LengthBounds(p);
    if forall k | 0 <= k < |p| :: p[k] as int <= 0xFFFF {
      JsText.Utf16LengthBmp(p);
    }
    if forall k | 0 <= k < |p| :: p[k] as int > 0xFFFF {
      JsText.Utf16LengthAstral(p);
    }
  }

  /** The two unique indexes: no two stored users share an e-mail or a name. A missing
      value is indexed as null, so two users without one clash as well. */
  predicate Unique(users: map<Id, User>) {
    forall i, j | i in users && j in users && i != j ::
      users[i].email != users[j].email && users[i].name != users[j].name
  }

  /** Storing `u` under `id` would violate a unique index. */
  predicate Clash(users: map<Id, User>, id: Id, u: User) {
    exists j | j in users && j != id :: users[j].email == u.email || users[j].name == u.name
  }

  /** The pre-save hook: a new document's non-null password is replaced by its hash;
      a document that is not new keeps whatever password it holds. `hash` stands for
      the bcrypt call and its salt. */
  function Hashed(u: User, isNew: bool, hash: string -> string): (h: User)
    ensures isNew && u.password.Some? ==> h == u.(password := Some(hash(u.password.value)))
    ensures !(isNew && u.password.Some?) ==> h == u
  {
    if isNew && u.password != None then u.(password := Some(hash(u.password.value))) else u
  }

  /** `user.save()`: validation (on the plain password), then the hook, then the write,
      which the `_id` and unique indexes may refuse. */
  function Save(users: map<Id, User>, id: Id, u: User, isNew: bool, hash: string -> string): (r: Result<map<Id, User>>)
    ensures !Acceptable(u) ==> r == Err(ValidationError(Validate(u)))
    ensures r.Ok? <==> Acceptable(u) && (isNew <==> id !in users) && !Clash(users, id, u)
    ensures r.Ok? ==> r.value == users[id := Hashed(u, isNew, hash)]
    ensures r.Ok? && isNew ==> r.value[id].password == Some(hash(u.password.value))
    ensures r.Ok? && !isNew ==> r.value[id] == u
    ensures r.Ok? && Unique(users) ==> Unique(r.value)
  {
    var errors := Validate(u);
    if errors != map[] then Err(ValidationError(errors))
    else
      var stored := Hashed(u, isNew, hash);
      if isNew && id in users then Err(DuplicateKey)
      else if !isNew && id !in users then Err(DocumentNotFound)
      else if Clash(users, id, stored) then Err(DuplicateKey)
      else
        UniqueInsert(users, id, stored);
        Ok(users[id := stored])
  }

  /** Writing a document that clashes with no other keeps both indexes unique. */
  lemma UniqueInsert(users: map<Id, User>, id: Id, u: User)
    requires !Clash(users, id, u)
    ensures Unique(users) ==> Unique(users[id := u])
  {
    var s := users[id := u];
    if Unique(users) {
      forall i, j | i in s && j in s && i != j
        ensures s[i].email != s[j].email && s[i].name != s[j].name
      {
        if i == id {
          assert j in users && j != id;
        } else if j == id {
          assert i in users && i != id;
        }
      }
    }
  }

  /** Saving the same user again, once stored, never hashes its password a second time. */
  lemma ResaveKeepsPassword(users: map<Id, User>, id: Id, u: User, hash: string -> string)
    requires Save(users, id, u, true, hash).Ok?
    ensures var stored := Save(users, id, u, true, hash).value;
            Save(stored, id, stored[id], false, hash).Ok? ==>
              Save(stored, id, stored[id], false, hash).value == stored
  {
    var stored := Save(users, id, u, true, hash).value;
    assert stored[id := stored[id]] == stored;
  }

  /** A user as the default projection returns it: `password` and `refreshToken` are
      `select: false`. */
  datatype PublicUser = PublicUser(
    email: Option<string>,
    name: Option<string>,
    description: Option<string>,
    avatar: Option<string>)

  function Public(u: User): (v: PublicUser)
    ensures v.email == u.email && v.name == u.name
    ensures v.description == u.description && v.avatar == u.avatar
  {
    PublicUser(u.email, u.name, u.description, u.avatar)
  }

  /** The default projection reveals nothing about the secrets: users that differ only
      in password or refresh token look the same. */
  lemma SecretsHidden(u: User, password: Option<string>, refreshToken: Option<string>)
    ensures Public(u) == Public(u.(password := password, refreshToken := refreshToken))
  {
  }

  /** The `dreams` virtual: the stored dreams whose `author` is the user's id. */
  function DreamsOf(user: Id, dreams: map<Id, Dreams.Dream>): (r: map<Id, Dreams.Dream>)
    ensures forall id :: id in r <==> id in dreams && dreams[id].author == Some(user)
    ensures forall id :: id in r ==> r[id] == dreams[id]
  {
    Select(dreams, (d: Dreams.Dream) => d.author == Some(user))
  }

  /** No dream is listed under two users. */
  lemma DreamsOfDisjoint(u1: Id, u2: Id, dreams: map<Id, Dreams.Dream>)
    requires u1 != u2
    ensures DreamsOf(u1, dreams).Keys !! DreamsOf(u2, dreams).Keys
  {
  }

  /** Deleting a dream takes it out of its author's list and changes no other entry. */
  lemma DeleteDreamLeavesAuthorList(user: Id, dreams: map<Id, Dreams.Dream>, id: Id)
    ensures DreamsOf(user, Dreams.Delete(dreams, Cast(id)).store) == DreamsOf(user, dreams) - {id}
  {
  }
}
