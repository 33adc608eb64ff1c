/**
 * The `users` collection behind the User model: documents keyed by `_id`,
 * the unique index on `email`, and the three operations the controllers
 * perform on it (findOne/findById, create, save).
 */
module UserStore {
  import opened Options
  import opened Crypto
  import opened UserModel

  /** The first document, in `_id` order, among ids lo .. hi-1 that matches `f`. */
  function FindFrom(users: map<Id, User>, f: Filter, lo: nat, hi: nat): (r: Option<Id>)
    decreases hi - lo
    ensures r.Some? ==> lo <= r.value < hi && r.value in users && Matches(users[r.value], f)
    ensures r.Some? ==> forall j :: lo <= j < r.value && j in users ==> !Matches(users[j], f)
    ensures r.None? ==> forall j :: lo <= j < hi && j in users ==> !Matches(users[j], f)
  {
    if lo >= hi then None
    else if lo in users && Matches(users[lo], f) then Some(lo)
    else FindFrom(users, f, lo + 1, hi)
  }

  class UserCollection {
    var users: map<Id, User>
    /** The `_id` the next created document receives. */
    var nextId: Id

    ghost predicate Valid()
      reads this
    {
      && (forall id :: id in users ==> id < nextId)
      && (forall id :: id in users ==> Persisted(users[id]))
      && UniqueEmails(users)
    }

    constructor ()
      ensures Valid() && users == map[] && nextId == 0
    {
      users, nextId := map[], 0;
    }

    /**
     * Model.findOne(f): a matching document, if any. Which of several
     * matches is returned is the model's choice: the one with the least `_id`.
     */
    function FindOne(f: Filter): (r: Option<Id>)
      reads this
      requires Valid()
      ensures r.Some? ==> r.value in users && Matches(users[r.value], f)
      ensures r.Some? ==> forall j :: j in users && j < r.value ==> !Matches(users[j], f)
      ensures r.None? <==> forall j :: j in users ==> !Matches(users[j], f)
    {
      FindFrom(users, f, 0, nextId)
    }

    /**
     * User.create({ name, email, password }) at time `now`. Validation
     * rejects a missing (empty) required field, the unique index rejects
     * an email already stored; either way nothing is written.
     */
    method Create(name: string, email: string, password: string, now: nat, salt: Salt) returns (r: Option<Id>)
      requires Valid()
      modifies this
      ensures Valid()
      ensures r.None? <==> name == "" || email == "" || password == "" || HasAccount(old(users), Lower(email))
      ensures r.None? ==> users == old(users) && nextId == old(nextId)
      ensures r.Some? ==> r.value == old(nextId) && r.value !in old(users)
      ensures r.Some? ==> users == old(users)[r.value := NewUser(name, email, password, now, salt)]
      ensures r.Some? ==> nextId == old(nextId) + 1
    {
      if name == "" || email == "" || password == "" {
        return None;
      }
      var doc := NewUser(name, email, password, now, salt);
      if exists id :: id in users && users[id].email == doc.email {
        return None;
      }
      r := Some(nextId);
      users := users[nextId := doc];
      nextId := nextId + 1;
    }

    /**
     * doc.save() on the loaded document `id`, written back as `doc` except
     * for the password path, where `written` is what was assigned to it
     * since loading (None: not modified; the stored hash stays). Mongoose
     * validates before it runs the pre-save hook, so an empty name, email
     * or assigned password fails without a write, and so does an email
     * another document holds.
     */
    method Save(id: Id, doc: User, written: Option<string>, salt: Salt) returns (ok: bool)
      requires Valid() && id in users
      requires IsLower(doc.email)
      modifies this
      ensures Valid() && nextId == old(nextId)
      ensures ok <==> doc.name != "" && doc.email != "" && written != Some("")
                      && !EmailTakenByOther(old(users), doc.email, id)
      ensures ok ==> users == old(users)[id := doc.(password := PreSaveHook(old(users)[id].password, written, salt))]
      ensures !ok ==> users == old(users)
    {
      if doc.name == "" || doc.email == "" || written == Some("") {
        return false;
      }
      if exists j :: j in users && j != id && users[j].email == doc.email {
        return false;
      }
      users := users[id := doc.(password := PreSaveHook(users[id].password, written, salt))];
      ok := true;
    }

    /**
     * doc.save({ validateBeforeSave: false }) after only the two reset
     * fields were assigned: Mongoose writes just the modified paths.
     */
    method SaveResetFields(id: Id, token: Option<Sha256Digest>, expire: Option<nat>)
      requires Valid() && id in users
      modifies this
      ensures Valid() && nextId == old(nextId)
      ensures users == old(users)[id := old(users)[id].(resetPasswordToken := token, resetPasswordExpire := expire)]
    {
      users := users[id := users[id].(resetPasswordToken := token, resetPasswordExpire := expire)];
    }
  }
}
