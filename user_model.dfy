/**
 * The User schema: the account record, the effect of its `lowercase`
 * setter, its `role` default, the pre-save hook that hashes the password,
 * `comparePassword`, and the reset-token fields that the controllers use.
 */
module UserModel {
  import opened Options
  import opened Crypto

  /** A document `_id`; the collection hands them out in insertion order. */
  type Id = nat

  datatype Role = Student | Instructor | Admin

  /** The schema's `default: 'student'`. */
  const DefaultRole: Role := Student

  /** The `password` path: what was written, until the pre-save hook replaces it with a hash. */
  datatype StoredPassword = Plain(text: string) | Hashed(hash: BcryptHash)

  datatype User = User(
    name: string,
    email: string,
    password: StoredPassword,
    role: Role,
    createdAt: nat,
    resetPasswordToken: Option<Sha256Digest>,
    resetPasswordExpire: Option<nat>)

  function LowerChar(c: char): (d: char)
    ensures 'A' <= c <= 'Z' ==> 'a' <= d <= 'z' && d as int - c as int == 32
    ensures !('A' <= c <= 'Z') ==> d == c
  {
    if 'A' <= c <= 'Z' then (c as int + 32) as char else c
  }

  /** What the `lowercase: true` setter stores (ASCII letters only). */
  function Lower(s: string): (r: string)
    ensures |r| == |s|
    ensures forall i :: 0 <= i < |s| ==> r[i] == LowerChar(s[i])
  {
    if s == [] then [] else [LowerChar(s[0])] + Lower(s[1..])
  }

  predicate IsLower(s: string)
  {
    forall i :: 0 <= i < |s| ==> !('A' <= s[i] <= 'Z')
  }

  /** The setter always yields a lower-case string, changes nothing that is
      already lower-case, and so is idempotent: an email read back from the
      store and written again is stored unchanged. */
  lemma LowerFixesLower(s: string)
    ensures IsLower(Lower(s))
    ensures IsLower(s) ==> Lower(s) == s
    ensures Lower(Lower(s)) == Lower(s)
  {
  }

  /** bcrypt.compare(candidate, this.password || ''): only a hash can verify;
      an empty or otherwise malformed stored value never does. */
  predicate ComparePassword(stored: StoredPassword, candidate: string): (ok: bool)
    ensures stored.Plain? ==> !ok
    ensures stored.Hashed? && stored.hash.rounds == SaltRounds ==>
              (ok <==> stored == Hashed(Hash(candidate, stored.hash.salt)))
  {
    match stored
    case Hashed(h) => Compare(candidate, h)
    case Plain(_) => false
  }

  /**
   * The pre-save hook. `written` is the value assigned to the password
   * path since the document was loaded (None when the path is not
   * modified). The hook leaves the path alone when it is not modified or
   * empty, and otherwise replaces it by a bcrypt hash of the new value.
   */
  function PreSaveHook(stored: StoredPassword, written: Option<string>, salt: Salt): (r: StoredPassword)
    ensures written.None? ==> r == stored
    ensures written == Some("") ==> r == Plain("")
    ensures written.Some? && written.value != "" ==>
              r == Hashed(Hash(written.value, salt)) && r != Plain(written.value)
    ensures written.Some? && written.value != "" ==>
              forall q :: ComparePassword(r, q) <==> q == written.value
  {
    match written
    case None => stored
    case Some(p) => if p == "" then Plain(p) else Hashed(Hash(p, salt))
  }

  /**
   * The document User.create builds from { name, email, password } at
   * time `now`: the setter lowercases the email, the role and createdAt
   * take their defaults, no reset is pending, and the hook hashes the
   * password.
   */
  function NewUser(name: string, email: string, password: string, now: nat, salt: Salt): (u: User)
    requires password != ""
    ensures u.name == name && u.email == Lower(email) && IsLower(u.email)
    ensures u.role == DefaultRole && u.createdAt == now
    ensures u.resetPasswordToken.None? && u.resetPasswordExpire.None?
    ensures u.password.Hashed? && u.password != Plain(password)
    ensures forall q :: ComparePassword(u.password, q) <==> q == password
  {
    LowerFixesLower(email);
    User(name, Lower(email), PreSaveHook(Plain(password), Some(password), salt), DefaultRole, now, None, None)
  }

  /** A query filter: `{ email }`, or `{ resetPasswordToken, resetPasswordExpire: { $gt: now } }`. */
  datatype Filter = EmailIs(email: string) | LiveResetToken(digest: Sha256Digest, now: nat)

  predicate Matches(u: User, f: Filter)
  {
    match f
    case EmailIs(e) => u.email == e
    case LiveResetToken(d, now) =>
      u.resetPasswordToken == Some(d) && u.resetPasswordExpire.Some? && u.resetPasswordExpire.value > now
  }

  /** A reset token refused at one time is refused at every later time. */
  lemma RefusalIsPermanent(u: User, d: Sha256Digest, now: nat, later: nat)
    requires !Matches(u, LiveResetToken(d, now)) && now <= later
    ensures !Matches(u, LiveResetToken(d, later))
  {}

  /** An account accepts at most one reset token, whatever the times asked about. */
  lemma OneLiveToken(u: User, d1: Sha256Digest, d2: Sha256Digest, t1: nat, t2: nat)
    requires Matches(u, LiveResetToken(d1, t1)) && Matches(u, LiveResetToken(d2, t2))
    ensures d1 == d2
  {}

  /**
   * user.getResetPasswordToken(): given the fresh random `plain`, the
   * document stores Digest(plain) with an expiry `window` milliseconds
   * after `now`, replacing any pending pair; `plain` itself is returned to
   * the caller and not stored. The token is accepted exactly while the
   * clock is strictly before the expiry, and no other token is.
   */
  function IssueResetToken(u: User, plain: string, now: nat, window: nat): (r: User)
    ensures r.name == u.name && r.email == u.email && r.password == u.password
    ensures r.role == u.role && r.createdAt == u.createdAt
    ensures r.resetPasswordToken.Some? && r.resetPasswordExpire.Some?
    ensures forall t: string, later: nat {:trigger Matches(r, LiveResetToken(Digest(t), later))} ::
              Matches(r, LiveResetToken(Digest(t), later)) <==> t == plain && later < now + window
  {
    u.(resetPasswordToken := Some(Digest(plain)), resetPasswordExpire := Some(now + window))
  }

  /** Setting both reset fields to undefined: no token matches the document afterwards. */
  function ClearReset(u: User): (r: User)
    ensures r.name == u.name && r.email == u.email && r.password == u.password
    ensures r.role == u.role && r.createdAt == u.createdAt
    ensures r.resetPasswordToken.None? && r.resetPasswordExpire.None?
    ensures forall d, now :: !Matches(r, LiveResetToken(d, now))
  {
    u.(resetPasswordToken := None, resetPasswordExpire := None)
  }

  /** What every stored account satisfies: `name`, `email` and `password`
      are present, the email is in setter form, the password is a hash. */
  predicate Persisted(u: User)
  {
    u.name != "" && u.email != "" && IsLower(u.email) && u.password.Hashed?
  }

  /** The `unique: true` index on `email`. */
  predicate UniqueEmails(users: map<Id, User>)
  {
    forall i, j :: i in users && j in users && i != j ==> users[i].email != users[j].email
  }

  predicate HasAccount(users: map<Id, User>, email: string)
  {
    exists id :: id in users && users[id].email == email
  }

  /** Saving `email` on document `self` would violate the unique index. */
  predicate EmailTakenByOther(users: map<Id, User>, email: string, self: Id)
  {
    exists id :: id in users && id != self && users[id].email == email
  }

  /** The two reset fields are set together or absent together. */
  predicate ResetPaired(users: map<Id, User>)
  {
    forall id :: id in users ==>
      users[id].resetPasswordToken.Some? == users[id].resetPasswordExpire.Some?
  }

  /** The public fields a response carries: `_id`, name, email, role; never the password. */
  datatype Profile = Profile(id: Id, name: string, email: string, role: Role)

  /** A document read with `.select('-password')`. */
  datatype ProfileView = ProfileView(id: Id, name: string, email: string, role: Role, createdAt: nat)
}
