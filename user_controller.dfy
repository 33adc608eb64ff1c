/**
 * The profile endpoints for the account the authentication middleware
 * identified (`authId`, standing for req.user.id).
 */
module UserController {
  import opened Options
  import opened Crypto
  import opened Http
  import opened UserModel
  import opened UserStore

  /** GET /api/users/me: the account without its password, or 404. */
  method GetUserProfile(db: UserCollection, authId: Id) returns (r: Reply<ProfileView>)
    requires db.Valid()
    ensures authId !in db.users ==> r == Fail(404, "User not found")
    ensures authId in db.users ==>
              && r.Ok? && r.status == 200
              && r.body.id == authId
              && r.body.name == db.users[authId].name
              && r.body.email == db.users[authId].email
              && r.body.role == db.users[authId].role
              && r.body.createdAt == db.users[authId].createdAt
  {
    if authId !in db.users {
      return Fail(404, "User not found");
    }
    var u := db.users[authId];
    r := Ok(200, ProfileView(authId, u.name, u.email, u.role, u.createdAt));
  }

  /**
   * PUT /api/users/me. A missing (empty) name or email keeps the stored
   * one, a given one replaces it (the email through the lowercase
   * setter); the password is rehashed only when a non-empty one is given.
   * Role, id, creation time and reset fields never change. An email that
   * another account holds makes the save fail on the unique index: 500 and
   * nothing written. An unknown id gives 404.
   */
  method UpdateUserProfile(db: UserCollection, authId: Id, name: string, email: string,
                           password: string, salt: Salt) returns (r: Reply<Profile>)
    requires db.Valid()
    modifies db
    ensures db.Valid()
    ensures db.nextId == old(db.nextId)
    ensures ResetPaired(old(db.users)) ==> ResetPaired(db.users)
    ensures authId !in old(db.users) ==> r == Fail(404, "User not found") && db.users == old(db.users)
    ensures authId in old(db.users) ==>
              var u := old(db.users)[authId];
              var newName := if name != "" then name else u.name;
              var newEmail := if email != "" then Lower(email) else u.email;
              && (EmailTakenByOther(old(db.users), newEmail, authId) ==>
                    r == Fail(500, "Server Error") && db.users == old(db.users))
              && (!EmailTakenByOther(old(db.users), newEmail, authId) ==>
                    && r == Ok(200, Profile(authId, newName, newEmail, u.role))
                    && db.users == old(db.users)[authId := u.(
                         name := newName,
                         email := newEmail,
                         password := if password != "" then Hashed(Hash(password, salt)) else u.password)])
  {
    if authId !in db.users {
      return Fail(404, "User not found");
    }
    var doc := db.users[authId];
    doc := doc.(name := if name != "" then name else doc.name);
    // The setter lowercases whatever is assigned; a stored email is already in that form.
    LowerFixesLower(if email != "" then email else doc.email);
    doc := doc.(email := Lower(if email != "" then email else doc.email));
    var written := if password != "" then Some(password) else None;
    var ok := db.Save(authId, doc, written, salt);
    if !ok {
      return Fail(500, "Server Error");
    }
    r := Ok(200, Profile(authId, doc.name, doc.email, doc.role));
  }
}
