/**
 * The authentication endpoints: register, login, forgot-password and
 * reset-password, with the token issuer they share. Request bodies are
 * plain strings where "" stands for a missing field; randomness, the
 * clock, the environment and the mailer's success are parameters.
 */
module AuthController {
  import opened Options
  import opened Crypto
  import opened Http
  import opened UserModel
  import opened UserStore

  /** The process environment the controllers read. */
  datatype Env = Env(jwtSecret: Option<string>, frontendUrl: Option<string>)

  /** The body of a successful register or login. */
  datatype AuthReply = AuthReply(profile: Profile, token: Jwt)

  /** The options handed to transporter.sendMail. */
  datatype Mail = Mail(from: string, to: string, subject: string, text: string)

  const MailSender: string := "noreply@edusmart.com"
  const MailSubject: string := "Password Reset Request"
  const MessageLead: string := "You are receiving this email because you (or someone else) has requested the reset of a password. Please make a PUT request to: \n\n "
  const ResetPath: string := "/auth/reset-password/"

  /** generateToken(id): a token for `id` that the issuing key accepts at issue time. */
  function GenerateToken(id: Id, env: Env, now: nat): (t: Jwt)
    ensures t.id == id && t.key == SigningKey(env.jwtSecret)
    ensures VerifyJwt(t, SigningKey(env.jwtSecret), now) == Some(id)
  {
    Sign(id, SigningKey(env.jwtSecret), now)
  }

  /** `${process.env.FRONTEND_URL}`: an unset variable interpolates as "undefined". */
  function FrontendUrl(env: Env): string
  {
    if env.frontendUrl.Some? then env.frontendUrl.value else "undefined"
  }

  /** Everything in the mail text before the plaintext token. */
  function LinkPrefix(env: Env): string
  {
    MessageLead + FrontendUrl(env) + ResetPath
  }

  /** The reset mail for plaintext token `plain`, addressed to `to`: the
      token read off its link is the one it was built from. */
  function ResetMail(to: string, env: Env, plain: string): (m: Mail)
    ensures m.from == MailSender && m.to == to && m.subject == MailSubject
    ensures TokenFromMail(m.text, env) == Some(plain)
  {
    Mail(MailSender, to, MailSubject, LinkPrefix(env) + plain)
  }

  /** What the owner of the mailbox reads off the link: the text after the link prefix. */
  function TokenFromMail(text: string, env: Env): Option<string>
  {
    var p := LinkPrefix(env);
    if |p| <= |text| && text[..|p|] == p then Some(text[|p|..]) else None
  }

  /**
   * POST /api/auth/register. An email already stored (after lowercasing)
   * gives 400; a missing field fails validation inside User.create, which
   * the handler reports as 500; otherwise exactly one account is added,
   * with role student, and the reply carries its public fields and a token
   * for its id.
   */
  method RegisterUser(db: UserCollection, name: string, email: string, password: string,
                      env: Env, now: nat, salt: Salt) returns (r: Reply<AuthReply>)
    requires db.Valid()
    modifies db
    ensures db.Valid()
    ensures db.nextId == (if r.Ok? then old(db.nextId) + 1 else old(db.nextId))
    ensures ResetPaired(old(db.users)) ==> ResetPaired(db.users)
    ensures HasAccount(old(db.users), Lower(email)) ==>
              r == Fail(400, "User already exists") && db.users == old(db.users)
    ensures !HasAccount(old(db.users), Lower(email)) && (name == "" || email == "" || password == "") ==>
              r == Fail(500, "Server Error") && db.users == old(db.users)
    ensures !HasAccount(old(db.users), Lower(email)) && name != "" && email != "" && password != "" ==>
              var id := old(db.nextId);
              && id !in old(db.users)
              && db.users == old(db.users)[id := NewUser(name, email, password, now, salt)]
              && r == Ok(201, AuthReply(Profile(id, name, Lower(email), Student), GenerateToken(id, env, now)))
  {
    var existing := db.FindOne(EmailIs(Lower(email)));
    if existing.Some? {
      return Fail(400, "User already exists");
    }
    var created := db.Create(name, email, password, now, salt);
    if created.None? {
      return Fail(500, "Server Error");
    }
    var id := created.value;
    var u := db.users[id];
    r := Ok(201, AuthReply(Profile(id, u.name, u.email, u.role), GenerateToken(id, env, now)));
  }

  /**
   * POST /api/auth/login. Succeeds exactly when an account with that
   * (lowercased) email exists and the password verifies against its hash;
   * an unknown email and a wrong password give the same 401 reply.
   */
  method LoginUser(db: UserCollection, email: string, password: string, env: Env, now: nat)
    returns (r: Reply<AuthReply>)
    requires db.Valid()
    ensures r.Ok? <==> exists id :: id in db.users && db.users[id].email == Lower(email)
                                   && ComparePassword(db.users[id].password, password)
    ensures r.Ok? ==> var id := r.body.profile.id;
              && id in db.users && db.users[id].email == Lower(email)
              && r == Ok(200, AuthReply(Profile(id, db.users[id].name, db.users[id].email, db.users[id].role),
                                        GenerateToken(id, env, now)))
    ensures r.Fail? ==> r == Fail(401, "Invalid email or password")
  {
    var found := db.FindOne(EmailIs(Lower(email)));
    if found.Some? && ComparePassword(db.users[found.value].password, password) {
      var id := found.value;
      var u := db.users[id];
      r := Ok(200, AuthReply(Profile(id, u.name, u.email, u.role), GenerateToken(id, env, now)));
    } else {
      r := Fail(401, "Invalid email or password");
    }
  }

  /**
   * POST /api/auth/forgotpassword with the fresh random token `plain`.
   * An unknown email gives 404 and changes nothing. Otherwise the account
   * stores Digest(plain) expiring `window` ms from `now`, and a mail whose
   * link ends in `plain` goes to the account's own address. When delivery
   * fails the two reset fields are cleared again and the reply is 500.
   * No other account changes.
   */
  method ForgotPassword(db: UserCollection, email: string, plain: string, env: Env,
                        now: nat, window: nat, delivered: bool)
    returns (r: Reply<string>, sent: Option<Mail>)
    requires db.Valid()
    modifies db
    ensures db.Valid()
    ensures db.nextId == old(db.nextId)
    ensures ResetPaired(old(db.users)) ==> ResetPaired(db.users)
    ensures !HasAccount(old(db.users), Lower(email)) ==>
              r == Fail(404, "User not found") && sent.None? && db.users == old(db.users)
    ensures forall id :: id in old(db.users) && old(db.users)[id].email == Lower(email) ==>
              && sent == Some(ResetMail(old(db.users)[id].email, env, plain))
              && (delivered ==>
                    && r == Ok(200, "Email Sent")
                    && db.users == old(db.users)[id := IssueResetToken(old(db.users)[id], plain, now, window)])
              && (!delivered ==>
                    && r == Fail(500, "Email could not be sent")
                    && db.users == old(db.users)[id := ClearReset(old(db.users)[id])])
  {
    var found := db.FindOne(EmailIs(Lower(email)));
    if found.None? {
      return Fail(404, "User not found"), None;
    }
    var id := found.value;
    var doc := IssueResetToken(db.users[id], plain, now, window);
    db.SaveResetFields(id, doc.resetPasswordToken, doc.resetPasswordExpire);
    sent := Some(ResetMail(doc.email, env, plain));
    if delivered {
      r := Ok(200, "Email Sent");
    } else {
      doc := ClearReset(doc);
      db.SaveResetFields(id, doc.resetPasswordToken, doc.resetPasswordExpire);
      r := Fail(500, "Email could not be sent");
    }
  }

  /**
   * PUT /api/auth/resetpassword/:resettoken with the presented `plain`
   * and the new `password`. It looks for an account storing Digest(plain)
   * whose expiry is strictly after `now`; none (wrong or expired token)
   * gives 400 and changes nothing. On a match the password is set and both
   * reset fields cleared in one validated save; an empty password fails
   * that validation (500, nothing written). Success returns a token for
   * the account.
   */
  method ResetPassword(db: UserCollection, plain: string, password: string, env: Env,
                       now: nat, salt: Salt) returns (r: Reply<Jwt>)
    requires db.Valid()
    modifies db
    ensures db.Valid()
    ensures db.nextId == old(db.nextId)
    ensures ResetPaired(old(db.users)) ==> ResetPaired(db.users)
    ensures (forall id :: id in old(db.users) ==> !Matches(old(db.users)[id], LiveResetToken(Digest(plain), now))) ==>
              r == Fail(400, "Invalid Token") && db.users == old(db.users)
    ensures (exists id :: id in old(db.users) && Matches(old(db.users)[id], LiveResetToken(Digest(plain), now))) ==>
              (r.Ok? <==> password != "")
    ensures (exists id :: id in old(db.users) && Matches(old(db.users)[id], LiveResetToken(Digest(plain), now))) ==>
              password == "" ==> r == Fail(500, "Server Error")
    ensures r.Fail? ==> db.users == old(db.users)
    ensures r.Fail? && r.status != 400 ==> r == Fail(500, "Server Error")
    ensures r.Ok? ==> var id := r.body.id;
              && id in old(db.users) && Matches(old(db.users)[id], LiveResetToken(Digest(plain), now))
              && (forall j :: j in old(db.users) && j < id ==> !Matches(old(db.users)[j], LiveResetToken(Digest(plain), now)))
              && r == Ok(200, GenerateToken(id, env, now))
              && db.users == old(db.users)[id := ClearReset(old(db.users)[id]).(password := Hashed(Hash(password, salt)))]
  {
    var found := db.FindOne(LiveResetToken(Digest(plain), now));
    if found.None? {
      return Fail(400, "Invalid Token");
    }
    var id := found.value;
    var doc := ClearReset(db.users[id]);
    var ok := db.Save(id, doc, Some(password), salt);
    if !ok {
      return Fail(500, "Server Error");
    }
    r := Ok(200, GenerateToken(id, env, now));
  }
}
