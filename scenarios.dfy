/**
 * Clients of the controllers that show what their contracts guarantee
 * across several requests: the full sign-up / reset lifecycle, single use
 * of a reset token, and a second forgot-password request superseding the
 * first.
 */
module Scenarios {
  import opened Options
  import opened Crypto
  import opened Http
  import opened UserModel
  import opened UserStore
  import opened AuthController

  /**
   * On an empty store: register Ann under `email`, in any case, log in
   * with the right and a wrong password, request a reset (delivered),
   * reset with the token read from the mail, try the same token again, and
   * log in with the old and the new password.
   */
  method AnnLifecycle(email: string, env: Env, now: nat, window: nat, plain: string, s1: Salt, s2: Salt)
    returns (statuses: seq<nat>)
    requires email != ""
    requires window > 0
    ensures statuses == [201, 200, 401, 200, 200, 400, 401, 200]
  {
    var db, first := SignUp(email, env, now, s1);
    var rest := ResetByMail(db, email, env, now, window, plain, s1, s2);
    statuses := first + rest;
  }

  /** Register Ann on an empty store, then log in right and wrong. */
  method SignUp(email: string, env: Env, now: nat, s1: Salt) returns (db: UserCollection, statuses: seq<nat>)
    requires email != ""
    ensures fresh(db) && db.Valid() && db.users == map[0 := NewUser("Ann", email, "secret1", now, s1)]
    ensures statuses == [201, 200, 401]
  {
    db := new UserCollection();
    LowerFixesLower(email);
    var registered := RegisterUser(db, "Ann", email, "secret1", env, now, s1);
    var login1 := LoginUser(db, email, "secret1", env, now);
    assert "wrong" != "secret1";
    var wrong := LoginUser(db, email, "wrong", env, now);
    statuses := [registered.status, login1.status, wrong.status];
  }

  /** With Ann alone in the store: forgot-password, reset with the mailed
      token, replay it, and log in with the old and the new password. */
  method ResetByMail(db: UserCollection, email: string, env: Env, now: nat, window: nat, plain: string,
                     s1: Salt, s2: Salt) returns (statuses: seq<nat>)
    requires email != ""
    requires window > 0
    requires db.Valid() && db.users == map[0 := NewUser("Ann", email, "secret1", now, s1)]
    modifies db
    ensures statuses == [200, 200, 400, 401, 200]
  {
    var first := ForgotAndReset(db, email, env, now, window, plain, s1, s2);
    var rest := LoginsAfterReset(db, email, env, now, s1, s2);
    statuses := first + rest;
  }

  /** With Ann alone in the store: forgot-password, reset with the token
      read off the mail, and a replay of that token. Afterwards Ann holds
      the hash of the new password and no reset pair. */
  method ForgotAndReset(db: UserCollection, email: string, env: Env, now: nat, window: nat, plain: string,
                        s1: Salt, s2: Salt) returns (statuses: seq<nat>)
    requires email != ""
    requires window > 0
    requires db.Valid() && db.users == map[0 := NewUser("Ann", email, "secret1", now, s1)]
    modifies db
    ensures db.Valid()
    ensures db.users == map[0 := NewUser("Ann", email, "secret1", now, s1).(password := Hashed(Hash("secret2", s2)))]
    ensures statuses == [200, 200, 400]
  {
    ghost var u0 := db.users[0];
    LowerFixesLower(email);
    var forgot, mail := ForgotPassword(db, email, plain, env, now, window, true);
    ghost var ann := db.users[0];
    assert db.users == map[0 := ann] && ann == IssueResetToken(u0, plain, now, window);
    assert Matches(ann, LiveResetToken(Digest(plain), now));
    var link := TokenFromMail(mail.value.text, env);
    var reset := ResetPassword(db, link.value, "secret2", env, now, s2);
    assert ClearReset(ann).(password := Hashed(Hash("secret2", s2))) == u0.(password := Hashed(Hash("secret2", s2)));
    var replay := ResetPassword(db, link.value, "secret3", env, now, s2);
    statuses := [forgot.status, reset.status, replay.status];
  }

  /** With Ann alone in the store after a reset to "secret2": the old
      password is refused and the new one logs in. */
  method LoginsAfterReset(db: UserCollection, email: string, env: Env, now: nat, s1: Salt, s2: Salt)
    returns (statuses: seq<nat>)
    requires email != ""
    requires db.Valid()
    requires db.users == map[0 := NewUser("Ann", email, "secret1", now, s1).(password := Hashed(Hash("secret2", s2)))]
    ensures statuses == [401, 200]
  {
    ghost var ann := db.users[0];
    assert ann.email == Lower(email);
    CompareHash("secret2", "secret1", s2);
    assert !ComparePassword(ann.password, "secret1") && ComparePassword(ann.password, "secret2");
    var oldLogin := LoginUser(db, email, "secret1", env, now);
    var newLogin := LoginUser(db, email, "secret2", env, now);
    statuses := [oldLogin.status, newLogin.status];
  }

  /**
   * Expiry is strict: on a store holding only Ann, a token delivered at
   * `now` is refused at `now + window` and accepted one millisecond
   * earlier.
   */
  method ExpiryIsStrict(email: string, env: Env, now: nat, window: nat, plain: string, s1: Salt, s2: Salt)
    returns (atExpiry: Reply<Jwt>, justBefore: Reply<Jwt>)
    requires email != ""
    requires window > 0
    ensures atExpiry == Fail(400, "Invalid Token")
    ensures justBefore.Ok? && justBefore.body.id == 0
  {
    var db := new UserCollection();
    LowerFixesLower(email);
    var registered := RegisterUser(db, "Ann", email, "secret1", env, now, s1);
    assert db.users == map[0 := NewUser("Ann", email, "secret1", now, s1)];
    var forgot, _ := ForgotPassword(db, email, plain, env, now, window, true);
    ghost var ann := db.users[0];
    assert db.users == map[0 := ann] && ann == IssueResetToken(NewUser("Ann", email, "secret1", now, s1), plain, now, window);
    atExpiry := ResetPassword(db, plain, "secret2", env, now + window, s2);
    justBefore := ResetPassword(db, plain, "secret2", env, now + window - 1, s2);
  }

  /** A token that reset a password cannot be used again, unless another
      account happens to hold the same digest. */
  method ResetTokenIsSingleUse(db: UserCollection, plain: string, p1: string, p2: string,
                               env: Env, now: nat, later: nat, s1: Salt, s2: Salt)
    returns (first: Reply<Jwt>, second: Reply<Jwt>)
    requires db.Valid()
    modifies db
    ensures first.Ok? && (forall j :: j in old(db.users) && j != first.body.id ==>
                            old(db.users)[j].resetPasswordToken != Some(Digest(plain)))
            ==> second == Fail(400, "Invalid Token")
  {
    first := ResetPassword(db, plain, p1, env, now, s1);
    second := ResetPassword(db, plain, p2, env, later, s2);
  }

  /** After a second delivered forgot-password request for the same account,
      the first token no longer resets that account. */
  method NewRequestSupersedes(db: UserCollection, email: string, t1: string, t2: string, env: Env,
                              now: nat, window: nat, later: nat)
    requires db.Valid()
    requires t1 != t2
    modifies db
    ensures forall id :: id in db.users && db.users[id].email == Lower(email) ==>
              !Matches(db.users[id], LiveResetToken(Digest(t1), later))
  {
    var r1, _ := ForgotPassword(db, email, t1, env, now, window, true);
    var r2, _ := ForgotPassword(db, email, t2, env, now, window, true);
  }
}
