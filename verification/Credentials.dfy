/**
 The credential tables and the committed effect of every credential transaction.
 Each transaction is atomic: a refusal leaves all rows as they were. Identifiers,
 digests and hashes are opaque values compared only for equality.
 */
module Credentials {
  import opened Wrappers
  import opened Ordering

  type Id = nat
  type Digest = nat
  type Hash = nat
  type Email = nat
  type Time = int

  const SECOND: Time := 1_000_000
  const GRACE: Time := 10 * SECOND
  const FAMILY_LIFE: Time := 7 * 24 * 3600 * SECOND
  const RESET_LIFE: Time := 30 * 60 * SECOND
  const REGISTRATION_LIFE: Time := 24 * 3600 * SECOND
  const ATTEMPTS: nat := 4

  datatype User = User(email: Email, hash: Hash, active: bool)

  datatype Family = Family(user: Id, active: bool, createdAt: Time, expiresAt: Time, revokedAt: Option<Time>)

  datatype Token = Token(family: Id, digest: Digest, issuedAt: Time, usedAt: Option<Time>, replacedBy: Option<Id>)

  datatype Status = Active | Completed | Expired | Revoked

  /** A password-reset challenge of a user. */
  datatype Challenge = Challenge(
    user: Id, status: Status, createdAt: Time, expiresAt: Time, completedAt: Option<Time>, revokedAt: Option<Time>)

  /** A registration challenge of an email. */
  datatype Registration = Registration(
    email: Email, status: Status, createdAt: Time, expiresAt: Time, completedAt: Option<Time>)

  /** A mailed single-use token of a challenge of either kind. */
  datatype MailToken = MailToken(challenge: Id, digest: Digest, issuedAt: Time, usedAt: Option<Time>)

  datatype Db = Db(
    now: Time,
    users: map<Id, User>,
    families: map<Id, Family>,
    tokens: map<Id, Token>,
    challenges: map<Id, Challenge>,
    resetTokens: map<Id, MailToken>,
    registrations: map<Id, Registration>,
    registrationTokens: map<Id, MailToken>,
    hashes: set<Hash>)  // every hash the hasher has handed out

  const EMPTY := Db(0, map[], map[], map[], map[], map[], map[], map[], {})

  datatype Refusal =
    | InvalidCredentials | InvalidSession | RefreshConflict | InvalidResetToken | InvalidRegistrationToken
    | DomainNotAllowed | UserNotFound | OpaqueTokenCollision | Unavailable

  datatype Outcome =
    | Noted                                  // a request read its snapshot
    | Ignored                                // accepted without effect
    | Refused(reason: Refusal)
    | LoggedIn(user: Id, family: Id, token: Id, verified: Hash)
    | Rotated(family: Id, token: Id, replacement: Id)
    | ReuseRevoked(family: Id, token: Id)    // committed, and the request is refused
    | SignedOut(family: Id, token: Id)
    | PasswordChanged(user: Id, family: Id, token: Id, verified: Hash, hash: Hash)
    | PasswordReset(user: Id, challenge: Id, token: Id, verified: Hash, hash: Hash)
    | ResetIssued(challenge: Id, token: Id)
    | StatusChanged(user: Id, active: bool)
    | RegistrationIssued(challenge: Id, token: Id)
    | Registered(user: Id, challenge: Id, token: Id)
    | UserAdded(user: Id)

  datatype Tx = Tx(db: Db, outcome: Outcome)

  // ----------------------------------------------------------- table queries

  predicate DigestTaken(tokens: map<Id, Token>, d: Digest) {
    exists t :: t in tokens && tokens[t].digest == d
  }

  predicate MailDigestTaken(tokens: map<Id, MailToken>, d: Digest) {
    exists t :: t in tokens && tokens[t].digest == d
  }

  /** The first generated digest that collides with no stored one; at most four are generated. */
  function FirstFree(tokens: map<Id, Token>, candidates: seq<Digest>): Option<Digest> {
    if candidates == [] then None
    else if !DigestTaken(tokens, candidates[0]) then Some(candidates[0])
    else FirstFree(tokens, candidates[1..])
  }

  function FirstFreeMail(tokens: map<Id, MailToken>, candidates: seq<Digest>): Option<Digest> {
    if candidates == [] then None
    else if !MailDigestTaken(tokens, candidates[0]) then Some(candidates[0])
    else FirstFreeMail(tokens, candidates[1..])
  }

  function Attempts(candidates: seq<Digest>): seq<Digest> {
    if |candidates| <= ATTEMPTS then candidates else candidates[..ATTEMPTS]
  }

  function ActiveFamilies(db: Db, user: Id): set<Id> {
    set f | f in db.families && db.families[f].user == user && db.families[f].active
  }

  function ActiveChallenges(db: Db, user: Id): set<Id> {
    set c | c in db.challenges && db.challenges[c].user == user && db.challenges[c].status == Active
  }

  function ActiveRegistrations(db: Db, email: Email): set<Id> {
    set c | c in db.registrations && db.registrations[c].email == email && db.registrations[c].status == Active
  }

  predicate EmailTaken(db: Db, email: Email) {
    exists u :: u in db.users && db.users[u].email == email
  }

  // ------------------------------------------------------------- row updates

  /** Revocation touches only an ACTIVE family. */
  function Revoke(f: Family, at: Time): Family {
    if f.active then f.(active := false, revokedAt := Some(at)) else f
  }

  function RevokeChallenge(c: Challenge, at: Time): Challenge {
    if c.status == Active then c.(status := Revoked, revokedAt := Some(at)) else c
  }

  /** Every ACTIVE family of the user revoked. */
  function RevokeAll(db: Db, user: Id): map<Id, Family> {
    map f | f in db.families :: if db.families[f].user == user then Revoke(db.families[f], db.now) else db.families[f]
  }

  function RevokeAllChallenges(db: Db, user: Id): map<Id, Challenge> {
    map c | c in db.challenges ::
      if db.challenges[c].user == user then RevokeChallenge(db.challenges[c], db.now) else db.challenges[c]
  }

  function NewFamily(db: Db, user: Id): Family { Family(user, true, db.now, db.now + FAMILY_LIFE, None) }

  function NewToken(db: Db, family: Id, d: Digest): Token { Token(family, d, db.now, None, None) }

  /** What issuing a new family needs from the generators. */
  datatype Minted = Minted(family: Id, token: Id, candidates: seq<Digest>)

  predicate IdsTaken(db: Db, minted: Minted) { minted.family in db.families || minted.token in db.tokens }

  function ChosenDigest(db: Db, minted: Minted): Option<Digest> {
    if IdsTaken(db, minted) then None else FirstFree(db.tokens, Attempts(minted.candidates))
  }

  function MintFailure(db: Db, minted: Minted): Refusal {
    if IdsTaken(db, minted) then Unavailable else OpaqueTokenCollision
  }

  /** Replaces the user's ACTIVE families by one new family holding one unused token. */
  function IssueFamily(db: Db, user: Id, minted: Minted, d: Digest): Db {
    db.(families := RevokeAll(db, user)[minted.family := NewFamily(db, user)],
        tokens := db.tokens[minted.token := NewToken(db, minted.family, d)])
  }

  // ----------------------------------------------------------------- sessions

  datatype Target = Target(user: Id, family: Id, token: Id)

  /** Finds a token by digest and the family and user it belongs to, without locks. */
  function FindRefresh(db: Db, d: Digest): Option<Target> {
    var found := set t | t in db.tokens && db.tokens[t].digest == d && db.tokens[t].family in db.families;
    if found == {} then None
    else
      var t := Least(found);
      Some(Target(db.families[db.tokens[t].family].user, db.tokens[t].family, t))
  }

  predicate CurrentUser(db: Db, user: Id) { user in db.users && db.users[user].active }

  /** The locked rows still are what the submitted token said. */
  predicate Locked(db: Db, target: Target, d: Digest) {
    target.family in db.families && db.families[target.family].user == target.user
    && target.token in db.tokens && db.tokens[target.token].family == target.family
    && db.tokens[target.token].digest == d
  }

  /** An ACTIVE, unexpired family whose token is unused. */
  predicate Live(db: Db, target: Target, d: Digest) {
    Locked(db, target, d) && db.families[target.family].active && db.now < db.families[target.family].expiresAt
    && db.tokens[target.token].usedAt.None?
  }

  function Login(db: Db, user: Id, verified: Hash, minted: Minted): Tx {
    if !CurrentUser(db, user) || db.users[user].hash != verified then Tx(db, Refused(InvalidCredentials))
    else
      match ChosenDigest(db, minted)
      case None => Tx(db, Refused(MintFailure(db, minted)))
      case Some(d) => Tx(IssueFamily(db, user, minted, d), LoggedIn(user, minted.family, minted.token, verified))
  }

  function Rotate(db: Db, target: Target, replacement: Id, d: Digest): Db
    requires target.token in db.tokens
  {
    db.(tokens := db.tokens[replacement := NewToken(db, target.family, d)]
                           [target.token := db.tokens[target.token].(usedAt := Some(db.now),
                                                                     replacedBy := Some(replacement))])
  }

  function Refresh(db: Db, target: Target, d: Digest, replacement: Id, candidates: seq<Digest>): Tx {
    if !CurrentUser(db, target.user) || !Locked(db, target, d) then Tx(db, Refused(InvalidSession))
    else
      var family, stored := db.families[target.family], db.tokens[target.token];
      if !family.active || db.now >= family.expiresAt then Tx(db, Refused(InvalidSession))
      else if stored.usedAt.Some? then
        if db.now <= stored.usedAt.value + GRACE then Tx(db, Refused(RefreshConflict))
        else Tx(db.(families := db.families[target.family := Revoke(family, db.now)]),
                ReuseRevoked(target.family, target.token))
      else if replacement in db.tokens then Tx(db, Refused(Unavailable))
      else
        match FirstFree(db.tokens, Attempts(candidates))
        case None => Tx(db, Refused(OpaqueTokenCollision))
        case Some(minted) =>
          Tx(Rotate(db, target, replacement, minted), Rotated(target.family, target.token, replacement))
  }

  function Logout(db: Db, target: Target, d: Digest): Tx {
    if target.user in db.users && Live(db, target, d) then
      Tx(db.(families := db.families[target.family := Revoke(db.families[target.family], db.now)]),
         SignedOut(target.family, target.token))
    else Tx(db, Ignored)
  }

  // ---------------------------------------------------------------- passwords

  /** The second transaction of a password change; the first one only validated. */
  function ChangePassword(db: Db, target: Target, d: Digest, verified: Hash, hash: Hash, minted: Minted): Tx {
    if !CurrentUser(db, target.user) || db.users[target.user].hash != verified || !Live(db, target, d) then
      Tx(db, Refused(InvalidSession))
    else
      match ChosenDigest(db, minted)
      case None => Tx(db, Refused(MintFailure(db, minted)))
      case Some(digest) =>
        var issued := IssueFamily(db, target.user, minted, digest);
        Tx(issued.(users := db.users[target.user := db.users[target.user].(hash := hash)],
                   challenges := RevokeAllChallenges(db, target.user),
                   hashes := db.hashes + {hash}),
           PasswordChanged(target.user, target.family, target.token, verified, hash))
  }

  datatype MailTarget = MailTarget(owner: Id, challenge: Id, token: Id)

  function FindReset(db: Db, d: Digest): Option<MailTarget> {
    var found := set t | t in db.resetTokens && db.resetTokens[t].digest == d
                         && db.resetTokens[t].challenge in db.challenges;
    if found == {} then None
    else
      var t := Least(found);
      Some(MailTarget(db.challenges[db.resetTokens[t].challenge].user, db.resetTokens[t].challenge, t))
  }

  predicate ResetUsable(db: Db, target: MailTarget, d: Digest) {
    target.challenge in db.challenges && db.challenges[target.challenge].user == target.owner
    && db.challenges[target.challenge].status == Active && db.now < db.challenges[target.challenge].expiresAt
    && target.token in db.resetTokens && db.resetTokens[target.token].challenge == target.challenge
    && db.resetTokens[target.token].digest == d && db.resetTokens[target.token].usedAt.None?
  }

  function CompleteReset(db: Db, target: MailTarget, d: Digest, verified: Hash, hash: Hash): Tx {
    if !CurrentUser(db, target.owner) || db.users[target.owner].hash != verified || !ResetUsable(db, target, d) then
      Tx(db, Refused(InvalidResetToken))
    else
      Tx(db.(users := db.users[target.owner := db.users[target.owner].(hash := hash)],
             families := RevokeAll(db, target.owner),
             challenges := db.challenges[target.challenge :=
               db.challenges[target.challenge].(status := Completed, completedAt := Some(db.now))],
             resetTokens := db.resetTokens[target.token := db.resetTokens[target.token].(usedAt := Some(db.now))],
             hashes := db.hashes + {hash}),
         PasswordReset(target.owner, target.challenge, target.token, verified, hash))
  }

  /**
   The challenge a new token joins: the user's unexpired ACTIVE one, or a new one after an
   expired one has been closed. Nothing when the generated identifier is already stored.
   */
  function OpenReset(db: Db, user: Id, challenge: Id): Option<(map<Id, Challenge>, Id)> {
    var active := ActiveChallenges(db, user);
    if active != {} && db.now < db.challenges[Least(active)].expiresAt then Some((db.challenges, Least(active)))
    else if challenge in db.challenges then None
    else
      var closed: map<Id, Challenge> := if active == {} then db.challenges
                    else db.challenges[Least(active) := db.challenges[Least(active)].(status := Expired)];
      var extended: map<Id, Challenge> :=
        closed[challenge := Challenge(user, Active, db.now, db.now + RESET_LIFE, None, None)];
      Some((extended, challenge))
  }

  function RequestReset(db: Db, user: Id, email: Email, challenge: Id, token: Id, candidates: seq<Digest>): Tx {
    if !CurrentUser(db, user) || db.users[user].email != email then Tx(db, Ignored)
    else
      match OpenReset(db, user, challenge)
      case None => Tx(db, Refused(Unavailable))
      case Some((challenges, owner)) =>
        if token in db.resetTokens then Tx(db, Refused(Unavailable))
        else
          match FirstFreeMail(db.resetTokens, Attempts(candidates))
          case None => Tx(db, Refused(OpaqueTokenCollision))
          case Some(d) =>
            Tx(db.(challenges := challenges, resetTokens := db.resetTokens[token := MailToken(owner, d, db.now, None)]),
               ResetIssued(owner, token))
  }

  function ChangeStatus(db: Db, user: Id, active: bool): Tx {
    if user !in db.users then Tx(db, Refused(UserNotFound))
    else if db.users[user].active == active then Tx(db, Ignored)
    else
      Tx(db.(users := db.users[user := db.users[user].(active := active)],
             families := if active then db.families else RevokeAll(db, user),
             challenges := if active then db.challenges else RevokeAllChallenges(db, user)),
         StatusChanged(user, active))
  }

  // ------------------------------------------------------------ registrations

  function FindRegistration(db: Db, d: Digest): Option<MailTarget> {
    var found := set t | t in db.registrationTokens && db.registrationTokens[t].digest == d
                         && db.registrationTokens[t].challenge in db.registrations;
    if found == {} then None
    else
      var t := Least(found);
      var c := db.registrationTokens[t].challenge;
      Some(MailTarget(db.registrations[c].email, c, t))
  }

  function OpenRegistration(db: Db, email: Email, challenge: Id): Option<(map<Id, Registration>, Id)> {
    var active := ActiveRegistrations(db, email);
    if active != {} && db.now < db.registrations[Least(active)].expiresAt then Some((db.registrations, Least(active)))
    else if challenge in db.registrations then None
    else
      var closed: map<Id, Registration> := if active == {} then db.registrations
                    else db.registrations[Least(active) := db.registrations[Least(active)].(status := Expired)];
      var extended: map<Id, Registration> :=
        closed[challenge := Registration(email, Active, db.now, db.now + REGISTRATION_LIFE, None)];
      Some((extended, challenge))
  }

  function RequestRegistration(
    db: Db, email: Email, allowed: bool, challenge: Id, token: Id, candidates: seq<Digest>): Tx
  {
    if !allowed then Tx(db, Refused(DomainNotAllowed))
    else if EmailTaken(db, email) then Tx(db, Ignored)
    else
      match OpenRegistration(db, email, challenge)
      case None => Tx(db, Refused(Unavailable))
      case Some((registrations, owner)) =>
        if token in db.registrationTokens then Tx(db, Refused(Unavailable))
        else
          match FirstFreeMail(db.registrationTokens, Attempts(candidates))
          case None => Tx(db, Refused(OpaqueTokenCollision))
          case Some(d) =>
            Tx(db.(registrations := registrations,
                   registrationTokens := db.registrationTokens[token := MailToken(owner, d, db.now, None)]),
               RegistrationIssued(owner, token))
  }

  predicate RegistrationUsable(db: Db, target: MailTarget, d: Digest) {
    target.challenge in db.registrations && db.registrations[target.challenge].email == target.owner
    && db.registrations[target.challenge].status == Active && db.now < db.registrations[target.challenge].expiresAt
    && target.token in db.registrationTokens && db.registrationTokens[target.token].challenge == target.challenge
    && db.registrationTokens[target.token].digest == d && db.registrationTokens[target.token].usedAt.None?
  }

  function CompleteRegistration(
    db: Db, target: MailTarget, d: Digest, allowed: bool, user: Id, hash: Hash, minted: Minted): Tx
  {
    if !RegistrationUsable(db, target, d) then Tx(db, Refused(InvalidRegistrationToken))
    else if !allowed then Tx(db, Refused(DomainNotAllowed))
    else if EmailTaken(db, target.owner) then Tx(db, Refused(InvalidRegistrationToken))
    else if user in db.users then Tx(db, Refused(Unavailable))
    else
      match ChosenDigest(db, minted)
      case None => Tx(db, Refused(MintFailure(db, minted)))
      case Some(digest) =>
        Tx(db.(users := db.users[user := User(target.owner, hash, true)],
               families := db.families[minted.family := NewFamily(db, user)],
               tokens := db.tokens[minted.token := NewToken(db, minted.family, digest)],
               registrations := db.registrations[target.challenge :=
                 db.registrations[target.challenge].(status := Completed, completedAt := Some(db.now))],
               registrationTokens := db.registrationTokens[target.token :=
                 db.registrationTokens[target.token].(usedAt := Some(db.now))],
               hashes := db.hashes + {hash}),
           Registered(user, target.challenge, target.token))
  }

  /** A user created outside registration. */
  function AddUser(db: Db, user: Id, email: Email, hash: Hash): Tx {
    if user in db.users || EmailTaken(db, email) then Tx(db, Refused(Unavailable))
    else Tx(db.(users := db.users[user := User(email, hash, true)], hashes := db.hashes + {hash}), UserAdded(user))
  }
}
