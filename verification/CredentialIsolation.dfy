/**
 A step changes the credentials of the one user it concerns, and the registrations of the
 one email, and nobody else's.
 */
module CredentialIsolation {
  import opened Wrappers
  import opened Ordering
  import opened Credentials
  import opened CredentialInvariants
  import opened CredentialProtocol
  import opened CredentialHistory

  predicate OwnsFamily(families: map<Id, Family>, v: Id, f: Id) { f in families && families[f].user == v }

  predicate OwnsChallenge(challenges: map<Id, Challenge>, v: Id, c: Id) { c in challenges && challenges[c].user == v }

  /** The user whose credentials the outcome changed. */
  predicate Concerns(after: Db, o: Outcome, v: Id) {
    match o
    case LoggedIn(u, _, _, _) => u == v
    case Rotated(f, _, _) => OwnsFamily(after.families, v, f)
    case ReuseRevoked(f, _) => OwnsFamily(after.families, v, f)
    case SignedOut(f, _) => OwnsFamily(after.families, v, f)
    case PasswordChanged(u, _, _, _, _) => u == v
    case PasswordReset(u, _, _, _, _) => u == v
    case ResetIssued(c, _) => OwnsChallenge(after.challenges, v, c)
    case StatusChanged(u, _) => u == v
    case Registered(u, _, _) => u == v
    case UserAdded(u) => u == v
    case _ => false
  }

  predicate SameUser(a: map<Id, User>, b: map<Id, User>, v: Id) {
    (v in a <==> v in b) && (v in a ==> b[v] == a[v])
  }

  predicate SameFamilies(a: map<Id, Family>, b: map<Id, Family>, v: Id) {
    && (forall f :: f in a && a[f].user == v ==> f in b && b[f] == a[f])
    && (forall f :: f in b && b[f].user == v ==> f in a && a[f] == b[f])
  }

  predicate SameChallenges(a: map<Id, Challenge>, b: map<Id, Challenge>, v: Id) {
    && (forall c :: c in a && a[c].user == v ==> c in b && b[c] == a[c])
    && (forall c :: c in b && b[c].user == v ==> c in a && a[c] == b[c])
  }

  /** The user's tokens are the same ones, before and after, each as it was. */
  predicate SameTokens(before: map<Id, Family>, a: map<Id, Token>, after: map<Id, Family>, b: map<Id, Token>, v: Id) {
    && (forall t :: t in a && OwnsFamily(before, v, a[t].family) ==> t in b && b[t] == a[t])
    && (forall t :: t in b && OwnsFamily(after, v, b[t].family) ==> t in a && a[t] == b[t])
  }

  /** The same for mailed tokens of the given challenges, before and after. */
  predicate SameMail(before: set<Id>, a: map<Id, MailToken>, after: set<Id>, b: map<Id, MailToken>) {
    && (forall t :: t in a && a[t].challenge in before ==> t in b && b[t] == a[t])
    && (forall t :: t in b && b[t].challenge in after ==> t in a && a[t] == b[t])
  }

  function ChallengesOf(challenges: map<Id, Challenge>, v: Id): set<Id> {
    set c | c in challenges && challenges[c].user == v
  }

  predicate SameRows(a: Db, b: Db, v: Id) {
    && SameUser(a.users, b.users, v) && SameFamilies(a.families, b.families, v)
    && SameChallenges(a.challenges, b.challenges, v)
    && SameTokens(a.families, a.tokens, b.families, b.tokens, v)
    && SameMail(ChallengesOf(a.challenges, v), a.resetTokens, ChallengesOf(b.challenges, v), b.resetTokens)
  }

  lemma SameRowsTransitive(a: Db, b: Db, c: Db, v: Id)
    requires SameRows(a, b, v) && SameRows(b, c, v)
    ensures SameRows(a, c, v)
  {
    hide SameTokens, SameMail, SameFamilies, SameChallenges, ChallengesOf;
    SameFamiliesTransitive(a.families, b.families, c.families, v);
    SameChallengesTransitive(a.challenges, b.challenges, c.challenges, v);
    SameTokensTransitive(a, b, c, v);
    SameMailTransitive(ChallengesOf(a.challenges, v), a.resetTokens, ChallengesOf(b.challenges, v), b.resetTokens,
                       ChallengesOf(c.challenges, v), c.resetTokens);
  }

  lemma SameFamiliesTransitive(a: map<Id, Family>, b: map<Id, Family>, c: map<Id, Family>, v: Id)
    requires SameFamilies(a, b, v) && SameFamilies(b, c, v)
    ensures SameFamilies(a, c, v)
  {
  }

  lemma SameChallengesTransitive(a: map<Id, Challenge>, b: map<Id, Challenge>, c: map<Id, Challenge>, v: Id)
    requires SameChallenges(a, b, v) && SameChallenges(b, c, v)
    ensures SameChallenges(a, c, v) && ChallengesOf(a, v) == ChallengesOf(b, v) == ChallengesOf(c, v)
  {
  }

  lemma SameMailTransitive(
    x: set<Id>, a: map<Id, MailToken>, y: set<Id>, b: map<Id, MailToken>, z: set<Id>, c: map<Id, MailToken>)
    requires SameMail(x, a, y, b) && SameMail(y, b, z, c) && x == y == z
    ensures SameMail(x, a, z, c)
  {
  }

  lemma SameTokensTransitive(a: Db, b: Db, c: Db, v: Id)
    requires SameFamilies(a.families, b.families, v) && SameFamilies(b.families, c.families, v)
    requires SameTokens(a.families, a.tokens, b.families, b.tokens, v)
    requires SameTokens(b.families, b.tokens, c.families, c.tokens, v)
    ensures SameTokens(a.families, a.tokens, c.families, c.tokens, v)
  {
  }

  /** Tables that did not change are the same to every owner. */
  lemma UnchangedTables(tokens: map<Id, Token>, mail: map<Id, MailToken>, v: Id)
    ensures forall a, b :: SameTokens(a, tokens, b, tokens, v)
    ensures forall a, b :: SameMail(a, mail, b, mail)
  {
  }

  // ------------------------------------------------------------ every transaction

  lemma RevokeAllIsolates(db: Db, u: Id, v: Id)
    requires u != v
    ensures SameFamilies(db.families, RevokeAll(db, u), v)
    ensures SameChallenges(db.challenges, RevokeAllChallenges(db, u), v)
  {
  }

  lemma IssueIsolates(db: Db, u: Id, minted: Minted, d: Digest, v: Id)
    requires u != v && !IdsTaken(db, minted)
    ensures SameRows(db, IssueFamily(db, u, minted, d), v)
  {
    RevokeAllIsolates(db, u, v);
    SameAsItself(db, v);
    FamilyAddedIsolates(db.families, RevokeAll(db, u), minted.family, NewFamily(db, u), v);
    TokenAddedIsolates(db.families, IssueFamily(db, u, minted, d).families, db.tokens, minted.token,
                       NewToken(db, minted.family, d), v);
    hide RevokeAll, SameUser, SameFamilies, SameTokens, SameChallenges, SameMail, NewFamily, NewToken;
  }

  lemma NewTokenFamily(db: Db, f: Id, d: Digest)
    ensures NewToken(db, f, d).family == f
  {
  }

  lemma FamilyAddedIsolates(a: map<Id, Family>, b: map<Id, Family>, f: Id, family: Family, v: Id)
    requires SameFamilies(a, b, v) && f !in a && family.user != v
    ensures SameFamilies(a, b[f := family], v)
  {
  }

  lemma TokenAddedIsolates(
    before: map<Id, Family>, after: map<Id, Family>, tokens: map<Id, Token>, t: Id, token: Token, v: Id)
    requires t !in tokens && !OwnsFamily(after, v, token.family)
    ensures SameTokens(before, tokens, after, tokens[t := token], v)
  {
  }

  lemma LoginIsolates(db: Db, user: Id, verified: Hash, minted: Minted, v: Id)
    requires var tx := Login(db, user, verified, minted); !Concerns(tx.db, tx.outcome, v)
    ensures SameRows(db, Login(db, user, verified, minted).db, v)
  {
    hide FirstFree, IssueFamily;
    if Login(db, user, verified, minted).outcome.LoggedIn? {
      IssueIsolates(db, user, minted, ChosenDigest(db, minted).value, v);
    }
  }

  lemma RefreshIsolates(db: Db, target: Target, d: Digest, r: Id, candidates: seq<Digest>, v: Id)
    requires var tx := Refresh(db, target, d, r, candidates); !Concerns(tx.db, tx.outcome, v)
    ensures SameRows(db, Refresh(db, target, d, r, candidates).db, v)
  {
    SameAsItself(db, v);
    hide FirstFree, SameUser, SameChallenges, SameMail;
    var tx := Refresh(db, target, d, r, candidates);
    if tx.outcome.Rotated? {
      hide SameFamilies;
      assert SameTokens(db.families, db.tokens, tx.db.families, tx.db.tokens, v);
    } else {
      hide SameTokens;
    }
  }

  lemma LogoutIsolates(db: Db, target: Target, d: Digest, v: Id)
    requires var tx := Logout(db, target, d); !Concerns(tx.db, tx.outcome, v)
    ensures SameRows(db, Logout(db, target, d).db, v)
  {
    SameAsItself(db, v);
    hide SameUser, SameChallenges, SameMail, SameTokens;
  }

  lemma ChangeIsolates(db: Db, target: Target, d: Digest, verified: Hash, hash: Hash, minted: Minted, v: Id)
    requires var tx := ChangePassword(db, target, d, verified, hash, minted); !Concerns(tx.db, tx.outcome, v)
    ensures SameRows(db, ChangePassword(db, target, d, verified, hash, minted).db, v)
  {
    hide FirstFree, IssueFamily, RevokeAll, RevokeAllChallenges, SameTokens, SameMail, SameFamilies, SameChallenges;
    SameAsItself(db, v);
    var tx := ChangePassword(db, target, d, verified, hash, minted);
    if tx.outcome.PasswordChanged? {
      var issued := IssueFamily(db, target.user, minted, ChosenDigest(db, minted).value);
      IssueIsolates(db, target.user, minted, ChosenDigest(db, minted).value, v);
      IssuedTables(db, target.user, minted, ChosenDigest(db, minted).value);
      RevokeAllIsolates(db, target.user, v);
    }
  }

  lemma IssuedTables(db: Db, user: Id, minted: Minted, d: Digest)
    ensures var b := IssueFamily(db, user, minted, d);
      b.resetTokens == db.resetTokens && b.users == db.users && b.challenges == db.challenges
  {
  }

  lemma ResetIsolates(db: Db, mail: MailTarget, d: Digest, verified: Hash, hash: Hash, v: Id)
    requires var tx := CompleteReset(db, mail, d, verified, hash); !Concerns(tx.db, tx.outcome, v)
    ensures SameRows(db, CompleteReset(db, mail, d, verified, hash).db, v)
  {
    SameAsItself(db, v);
    hide RevokeAll, SameFamilies, SameTokens;
    if mail.owner != v { RevokeAllIsolates(db, mail.owner, v); }
  }

  lemma RequestResetIsolates(db: Db, user: Id, email: Email, c: Id, t: Id, candidates: seq<Digest>, v: Id)
    requires var tx := RequestReset(db, user, email, c, t, candidates); !Concerns(tx.db, tx.outcome, v)
    ensures SameRows(db, RequestReset(db, user, email, c, t, candidates).db, v)
  {
    SameAsItself(db, v);
    hide FirstFreeMail, OpenReset, SameUser, SameFamilies, SameTokens, SameChallenges;
    var tx := RequestReset(db, user, email, c, t, candidates);
    if tx.outcome.ResetIssued? { OpeningIsolates(db, user, c, v); }
  }

  lemma OpeningIsolates(db: Db, user: Id, c: Id, v: Id)
    requires OpenReset(db, user, c).Some?
    ensures var (challenges, owner) := OpenReset(db, user, c).value;
      owner in challenges && challenges[owner].user == user
      && (user != v ==> SameChallenges(db.challenges, challenges, v))
  {
    var active := ActiveChallenges(db, user);
    if active != {} { assert Least(active) in active; }
  }

  lemma StatusIsolates(db: Db, user: Id, active: bool, v: Id)
    requires var tx := ChangeStatus(db, user, active); !Concerns(tx.db, tx.outcome, v)
    ensures SameRows(db, ChangeStatus(db, user, active).db, v)
  {
    SameAsItself(db, v);
    hide RevokeAll, RevokeAllChallenges, SameFamilies, SameChallenges, SameTokens, SameMail;
    if user != v { RevokeAllIsolates(db, user, v); }
  }

  lemma RegistrationIsolates(
      db: Db, mail: MailTarget, d: Digest, allowed: bool, user: Id, hash: Hash, minted: Minted, v: Id)
    requires var tx := CompleteRegistration(db, mail, d, allowed, user, hash, minted); !Concerns(tx.db, tx.outcome, v)
    ensures SameRows(db, CompleteRegistration(db, mail, d, allowed, user, hash, minted).db, v)
  {
    SameAsItself(db, v);
    hide FirstFree, EmailTaken, RegistrationUsable, SameFamilies, SameTokens, SameChallenges, SameMail, NewToken;
    var tx := CompleteRegistration(db, mail, d, allowed, user, hash, minted);
    if tx.outcome.Registered? {
      FamilyAddedIsolates(db.families, db.families, minted.family, NewFamily(db, user), v);
      NewTokenFamily(db, minted.family, ChosenDigest(db, minted).value);
      TokenAddedIsolates(db.families, tx.db.families, db.tokens, minted.token,
                         NewToken(db, minted.family, ChosenDigest(db, minted).value), v);
    }
  }

  lemma RequestRegistrationIsolates(
      db: Db, email: Email, allowed: bool, c: Id, t: Id, candidates: seq<Digest>, v: Id)
    ensures SameRows(db, RequestRegistration(db, email, allowed, c, t, candidates).db, v)
  {
    SameAsItself(db, v);
    hide FirstFreeMail, EmailTaken, OpenRegistration, SameUser, SameFamilies, SameTokens, SameChallenges, SameMail;
  }

  lemma AddUserIsolates(db: Db, user: Id, email: Email, hash: Hash, v: Id)
    requires var tx := AddUser(db, user, email, hash); !Concerns(tx.db, tx.outcome, v)
    ensures SameRows(db, AddUser(db, user, email, hash).db, v)
  {
    SameAsItself(db, v);
    hide EmailTaken, SameFamilies, SameTokens, SameChallenges, SameMail;
  }

  lemma SameAsItself(db: Db, v: Id)
    ensures SameRows(db, db, v)
    ensures forall a, b :: SameTokens(a, db.tokens, b, db.tokens, v)
    ensures forall a, b :: SameMail(a, db.resetTokens, b, db.resetTokens)
  {
    UnchangedTables(db.tokens, db.resetTokens, v);
  }

  /** Whoever the outcome does not concern keeps every row: user, families, tokens and reset challenges. */
  lemma OthersAreUntouched(s: Sys, step: Step, v: Id)
    requires !Concerns(Exec(s, step).sys.db, Exec(s, step).outcome, v)
    ensures SameRows(s.db, Exec(s, step).sys.db, v)
  {
    hide SameRows, Concerns, Login, Refresh, Logout, ChangePassword, CompleteReset, CompleteRegistration, RequestReset,
      RequestRegistration, ChangeStatus, AddUser, FindRefresh, FindReset, FindRegistration, ReadLogin, ReadChange,
      ReadReset;
    var db := s.db;
    SameAsItself(db, v);
    match step
    case BeginLogin(r, email, matches) =>
    case BeginRefresh(r, d) =>
    case BeginLogout(r, d) =>
    case BeginChange(r, d, principal, matches) =>
    case BeginReset(r, d) =>
    case BeginRegister(r, d) =>
    case CommitLogin(r, minted) =>
      if r in s.pending && s.pending[r].LoginPending? {
        LoginIsolates(db, s.pending[r].user, s.pending[r].verified, minted, v);
      }
    case CommitRefresh(r, replacement, candidates) =>
      if r in s.pending && s.pending[r].RefreshPending? {
        RefreshIsolates(db, s.pending[r].target, s.pending[r].digest, replacement, candidates, v);
      }
    case CommitLogout(r) =>
      if r in s.pending && s.pending[r].LogoutPending? {
        LogoutIsolates(db, s.pending[r].target, s.pending[r].digest, v);
      }
    case CommitChange(r, hash, minted) =>
      if r in s.pending && s.pending[r].ChangePending? {
        ChangeIsolates(db, s.pending[r].target, s.pending[r].digest, s.pending[r].verified, hash, minted, v);
      }
    case CommitReset(r, hash) =>
      if r in s.pending && s.pending[r].ResetPending? {
        ResetIsolates(db, s.pending[r].mail, s.pending[r].digest, s.pending[r].verified, hash, v);
      }
    case CommitRegister(r, allowed, user, hash, minted) =>
      if r in s.pending && s.pending[r].RegisterPending? {
        RegistrationIsolates(db, s.pending[r].mail, s.pending[r].digest, allowed, user, hash, minted, v);
      }
    case AskReset(user, email, c, t, candidates) => RequestResetIsolates(db, user, email, c, t, candidates, v);
    case AskRegistration(email, allowed, c, t, candidates) =>
      RequestRegistrationIsolates(db, email, allowed, c, t, candidates, v);
    case SetStatus(user, active) => StatusIsolates(db, user, active, v);
    case Bootstrap(user, email, hash) => AddUserIsolates(db, user, email, hash, v);
    case Wait(elapsed) => WaitIsolates(db, db.now + elapsed, v);
  }

  lemma WaitIsolates(db: Db, now: Time, v: Id)
    ensures SameRows(db, db.(now := now), v)
  {
  }

  // ------------------------------------------------------------ registrations of an email

  predicate OwnsRegistration(registrations: map<Id, Registration>, e: Email, c: Id) {
    c in registrations && registrations[c].email == e
  }

  /** The email whose registrations the outcome changed, or which it gave a user. */
  predicate ConcernsEmail(after: Db, o: Outcome, e: Email) {
    match o
    case RegistrationIssued(c, _) => OwnsRegistration(after.registrations, e, c)
    case Registered(_, c, _) => OwnsRegistration(after.registrations, e, c)
    case UserAdded(u) => u in after.users && after.users[u].email == e
    case _ => false
  }

  function RegistrationsOf(registrations: map<Id, Registration>, e: Email): set<Id> {
    set c | c in registrations && registrations[c].email == e
  }

  predicate SameRegistrations(a: map<Id, Registration>, b: map<Id, Registration>, e: Email) {
    && (forall c :: c in a && a[c].email == e ==> c in b && b[c] == a[c])
    && (forall c :: c in b && b[c].email == e ==> c in a && a[c] == b[c])
  }

  predicate SameSignup(a: Db, b: Db, e: Email) {
    && SameRegistrations(a.registrations, b.registrations, e)
    && SameMail(RegistrationsOf(a.registrations, e), a.registrationTokens,
                RegistrationsOf(b.registrations, e), b.registrationTokens)
    && (EmailTaken(a, e) <==> EmailTaken(b, e))
  }

  lemma SameRegistrationsTransitive(
    a: map<Id, Registration>, b: map<Id, Registration>, c: map<Id, Registration>, e: Email)
    requires SameRegistrations(a, b, e) && SameRegistrations(b, c, e)
    ensures SameRegistrations(a, c, e) && RegistrationsOf(a, e) == RegistrationsOf(b, e) == RegistrationsOf(c, e)
  {
  }

  lemma SameSignupTransitive(a: Db, b: Db, c: Db, e: Email)
    requires SameSignup(a, b, e) && SameSignup(b, c, e)
    ensures SameSignup(a, c, e)
  {
    hide SameRegistrations, SameMail, RegistrationsOf, EmailTaken;
    SameRegistrationsTransitive(a.registrations, b.registrations, c.registrations, e);
    SameMailTransitive(RegistrationsOf(a.registrations, e), a.registrationTokens,
                       RegistrationsOf(b.registrations, e), b.registrationTokens,
                       RegistrationsOf(c.registrations, e), c.registrationTokens);
  }

  lemma SameEmails(a: Db, b: Db, e: Email)
    requires b.users.Keys == a.users.Keys && forall u :: u in a.users ==> b.users[u].email == a.users[u].email
    ensures EmailTaken(a, e) <==> EmailTaken(b, e)
  {
    forall u | u in a.users ensures u in b.users && b.users[u].email == a.users[u].email {
    }
  }

  /** Tables of registrations left alone, and users with the emails they had. */
  lemma SignupLeftAlone(a: Db, b: Db, e: Email)
    requires SignupsKept(a, b)
    ensures SameSignup(a, b, e)
  {
    SameEmails(a, b, e);
    hide EmailTaken;
  }

  /** A user added under another email. */
  lemma OtherEmailAdded(a: Db, b: Db, u: Id, user: User, e: Email)
    requires u !in a.users && b.users == a.users[u := user] && user.email != e
    ensures EmailTaken(a, e) <==> EmailTaken(b, e)
  {
    forall v | v in a.users ensures v in b.users && b.users[v] == a.users[v] {
    }
  }

  lemma RequestRegistrationSignup(db: Db, email: Email, allowed: bool, c: Id, t: Id, candidates: seq<Digest>, e: Email)
    requires var tx := RequestRegistration(db, email, allowed, c, t, candidates); !ConcernsEmail(tx.db, tx.outcome, e)
    ensures SameSignup(db, RequestRegistration(db, email, allowed, c, t, candidates).db, e)
  {
    hide FirstFreeMail, OpenRegistration, SameRegistrations, SameMail, RegistrationsOf, EmailTaken;
    var tx := RequestRegistration(db, email, allowed, c, t, candidates);
    SignupLeftAlone(db, db, e);
    if tx.outcome.RegistrationIssued? {
      OpeningRegistrationIsolates(db, email, c, e);
      MailAddedIsolates(RegistrationsOf(db.registrations, e), RegistrationsOf(tx.db.registrations, e),
                        db.registrationTokens, t, tx.db.registrationTokens[t]);
      SameEmails(db, tx.db, e);
    }
  }

  lemma OpeningRegistrationIsolates(db: Db, email: Email, c: Id, e: Email)
    requires OpenRegistration(db, email, c).Some?
    ensures var (registrations, owner) := OpenRegistration(db, email, c).value;
      owner in registrations && registrations[owner].email == email
      && (email != e ==> SameRegistrations(db.registrations, registrations, e)
                         && RegistrationsOf(registrations, e) == RegistrationsOf(db.registrations, e)
                         && owner !in RegistrationsOf(registrations, e))
  {
    var active := ActiveRegistrations(db, email);
    if active != {} { assert Least(active) in active; }
  }

  lemma MailAddedIsolates(before: set<Id>, after: set<Id>, mail: map<Id, MailToken>, t: Id, token: MailToken)
    requires before == after && t !in mail && token.challenge !in after
    ensures SameMail(before, mail, after, mail[t := token])
  {
  }

  lemma RegistrationSignup(
    db: Db, mail: MailTarget, d: Digest, allowed: bool, user: Id, hash: Hash, minted: Minted, e: Email)
    requires var tx := CompleteRegistration(db, mail, d, allowed, user, hash, minted);
      !ConcernsEmail(tx.db, tx.outcome, e)
    ensures SameSignup(db, CompleteRegistration(db, mail, d, allowed, user, hash, minted).db, e)
  {
    hide FirstFree, EmailTaken;
    SignupLeftAlone(db, db, e);
    var tx := CompleteRegistration(db, mail, d, allowed, user, hash, minted);
    if tx.outcome.Registered? {
      OtherEmailAdded(db, tx.db, user, User(mail.owner, hash, true), e);
    }
  }

  lemma AddUserSignup(db: Db, user: Id, email: Email, hash: Hash, e: Email)
    requires var tx := AddUser(db, user, email, hash); !ConcernsEmail(tx.db, tx.outcome, e)
    ensures SameSignup(db, AddUser(db, user, email, hash).db, e)
  {
    hide EmailTaken, SameRegistrations, SameMail, RegistrationsOf;
    SignupLeftAlone(db, db, e);
    if AddUser(db, user, email, hash).outcome.UserAdded? {
      OtherEmailAdded(db, AddUser(db, user, email, hash).db, user, User(email, hash, true), e);
    }
  }

  /** Nothing about registrations moved, and every user still has the same email. */
  predicate SignupsKept(a: Db, b: Db) {
    && b.registrations == a.registrations && b.registrationTokens == a.registrationTokens
    && b.users.Keys == a.users.Keys && forall u :: u in a.users ==> b.users[u].email == a.users[u].email
  }

  lemma LoginKeepsSignups(db: Db, user: Id, verified: Hash, minted: Minted)
    ensures SignupsKept(db, Login(db, user, verified, minted).db)
  {
    hide FirstFree, RevokeAll, NewFamily, NewToken, SignupsKept;
    UsersAlike(db, Login(db, user, verified, minted).db);
  }

  lemma RefreshKeepsSignups(db: Db, target: Target, d: Digest, r: Id, candidates: seq<Digest>)
    ensures SignupsKept(db, Refresh(db, target, d, r, candidates).db)
  {
    hide FirstFree, Locked, NewToken, Revoke, SignupsKept;
    UsersAlike(db, Refresh(db, target, d, r, candidates).db);
  }

  lemma LogoutKeepsSignups(db: Db, target: Target, d: Digest)
    ensures SignupsKept(db, Logout(db, target, d).db)
  {
    hide Revoke, SignupsKept;
    UsersAlike(db, Logout(db, target, d).db);
  }

  lemma ChangeKeepsSignups(db: Db, target: Target, d: Digest, verified: Hash, hash: Hash, minted: Minted)
    ensures SignupsKept(db, ChangePassword(db, target, d, verified, hash, minted).db)
  {
    hide FirstFree, RevokeAll, RevokeAllChallenges, Live, NewFamily, NewToken;
  }

  lemma ResetKeepsSignups(db: Db, mail: MailTarget, d: Digest, verified: Hash, hash: Hash)
    ensures SignupsKept(db, CompleteReset(db, mail, d, verified, hash).db)
  {
    hide RevokeAll;
  }

  lemma RequestResetKeepsSignups(db: Db, user: Id, email: Email, c: Id, t: Id, candidates: seq<Digest>)
    ensures SignupsKept(db, RequestReset(db, user, email, c, t, candidates).db)
  {
    hide FirstFreeMail, OpenReset;
  }

  lemma StatusKeepsSignups(db: Db, user: Id, active: bool)
    ensures SignupsKept(db, ChangeStatus(db, user, active).db)
  {
    hide RevokeAll, RevokeAllChallenges, SignupsKept;
    UsersAlike(db, db);
    if ChangeStatus(db, user, active).outcome.StatusChanged? {
      EmailKept(db, ChangeStatus(db, user, active).db, user, active);
    }
  }

  lemma EmailKept(a: Db, b: Db, u: Id, active: bool)
    requires u in a.users && b.users == a.users[u := a.users[u].(active := active)]
    requires b.registrations == a.registrations && b.registrationTokens == a.registrationTokens
    ensures SignupsKept(a, b)
  {
  }

  lemma UsersAlike(a: Db, b: Db)
    requires b.users == a.users && b.registrations == a.registrations && b.registrationTokens == a.registrationTokens
    ensures SignupsKept(a, b)
  {
  }

  /** Transactions on users, sessions and resets leave registrations and emails alone. */
  lemma OtherTransactionsKeepSignups(s: Sys, step: Step)
    requires !step.CommitRegister? && !step.AskRegistration? && !step.Bootstrap?
    ensures SignupsKept(s.db, Exec(s, step).sys.db)
  {
    hide SignupsKept, Login, Refresh, Logout, ChangePassword, CompleteReset, RequestReset, ChangeStatus, FindRefresh,
      FindReset, FindRegistration, ReadLogin, ReadChange, ReadReset;
    var db := s.db;
    UsersAlike(db, db);
    UsersAlike(db, db.(now := Exec(s, step).sys.db.now));
    match step
    case CommitLogin(r, minted) =>
      if r in s.pending && s.pending[r].LoginPending? {
        LoginKeepsSignups(db, s.pending[r].user, s.pending[r].verified, minted);
      }
    case CommitRefresh(r, replacement, candidates) =>
      if r in s.pending && s.pending[r].RefreshPending? {
        RefreshKeepsSignups(db, s.pending[r].target, s.pending[r].digest, replacement, candidates);
      }
    case CommitLogout(r) =>
      if r in s.pending && s.pending[r].LogoutPending? {
        LogoutKeepsSignups(db, s.pending[r].target, s.pending[r].digest);
      }
    case CommitChange(r, hash, minted) =>
      if r in s.pending && s.pending[r].ChangePending? {
        ChangeKeepsSignups(db, s.pending[r].target, s.pending[r].digest, s.pending[r].verified, hash, minted);
      }
    case CommitReset(r, hash) =>
      if r in s.pending && s.pending[r].ResetPending? {
        ResetKeepsSignups(db, s.pending[r].mail, s.pending[r].digest, s.pending[r].verified, hash);
      }
    case AskReset(user, email, c, t, candidates) => RequestResetKeepsSignups(db, user, email, c, t, candidates);
    case SetStatus(user, active) => StatusKeepsSignups(db, user, active);
    case _ =>
  }

  /** An email the outcome does not concern keeps its registrations, their tokens, and whether it has a user. */
  lemma OtherEmailsAreUntouched(s: Sys, step: Step, e: Email)
    requires !ConcernsEmail(Exec(s, step).sys.db, Exec(s, step).outcome, e)
    ensures SameSignup(s.db, Exec(s, step).sys.db, e)
  {
    hide SameSignup, ConcernsEmail, CompleteRegistration, RequestRegistration, AddUser;
    var db := s.db;
    SignupLeftAlone(db, db, e);
    if step.CommitRegister? {
      var r := step.request;
      if r in s.pending && s.pending[r].RegisterPending? {
        RegistrationSignup(db, s.pending[r].mail, s.pending[r].digest, step.allowed, step.user, step.hash,
                           step.minted, e);
      }
    } else if step.AskRegistration? {
      RequestRegistrationSignup(db, step.email, step.allowed, step.challenge, step.token, step.candidates, e);
    } else if step.Bootstrap? {
      AddUserSignup(db, step.user, step.email, step.hash, e);
    } else {
      OtherTransactionsKeepSignups(s, step);
      SignupLeftAlone(db, Exec(s, step).sys.db, e);
    }
  }
}
