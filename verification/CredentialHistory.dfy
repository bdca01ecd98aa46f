/** Whole runs of the credential protocol: what is final, what happens once, what never returns. */
module CredentialHistory {
  import opened Wrappers
  import opened Ordering
  import opened Credentials
  import opened CredentialInvariants
  import opened CredentialProtocol

  // ------------------------------------------------------------ what only grows

  /** A user keeps the email; a hash that changes becomes one never handed out before. */
  predicate UsersGrow(a: Users, b: Users, seen: set<Hash>) {
    forall u :: u in a ==> u in b && b[u].email == a[u].email && (b[u].hash == a[u].hash || b[u].hash !in seen)
  }

  /** A family keeps owner and lifetime, and stays as it is once it left ACTIVE. */
  predicate FamiliesGrow(a: Families, b: Families) {
    forall f :: f in a ==> f in b && b[f].user == a[f].user && b[f].createdAt == a[f].createdAt
                           && b[f].expiresAt == a[f].expiresAt && (!a[f].active ==> b[f] == a[f])
  }

  predicate TokensGrow(a: Tokens, b: Tokens) {
    forall t :: t in a ==> t in b && b[t].family == a[t].family && b[t].digest == a[t].digest
                           && b[t].issuedAt == a[t].issuedAt && (a[t].usedAt.Some? ==> b[t] == a[t])
  }

  predicate ChallengesGrow(a: Challenges, b: Challenges) {
    forall c :: c in a ==> c in b && b[c].user == a[c].user && b[c].createdAt == a[c].createdAt
                           && b[c].expiresAt == a[c].expiresAt && (a[c].status != Active ==> b[c] == a[c])
  }

  predicate RegistrationsGrow(a: Registrations, b: Registrations) {
    forall c :: c in a ==> c in b && b[c].email == a[c].email && b[c].createdAt == a[c].createdAt
                           && b[c].expiresAt == a[c].expiresAt && (a[c].status != Active ==> b[c] == a[c])
  }

  predicate MailTokensGrow(a: MailTokens, b: MailTokens) {
    forall t :: t in a ==> t in b && b[t].challenge == a[t].challenge && b[t].digest == a[t].digest
                           && b[t].issuedAt == a[t].issuedAt && (a[t].usedAt.Some? ==> b[t] == a[t])
  }

  predicate Grows(a: Db, b: Db) {
    a.now <= b.now && a.hashes <= b.hashes
    && UsersGrow(a.users, b.users, a.hashes)
    && FamiliesGrow(a.families, b.families)
    && TokensGrow(a.tokens, b.tokens)
    && ChallengesGrow(a.challenges, b.challenges)
    && MailTokensGrow(a.resetTokens, b.resetTokens)
    && RegistrationsGrow(a.registrations, b.registrations)
    && MailTokensGrow(a.registrationTokens, b.registrationTokens)
  }

  lemma GrowsTransitive(a: Db, b: Db, c: Db)
    requires Grows(a, b) && Grows(b, c)
    ensures Grows(a, c)
  {
    assert UsersGrow(a.users, c.users, a.hashes);
    assert FamiliesGrow(a.families, c.families);
    assert TokensGrow(a.tokens, c.tokens);
    assert ChallengesGrow(a.challenges, c.challenges);
    assert RegistrationsGrow(a.registrations, c.registrations);
  }

  lemma IssueFamilyGrows(db: Db, user: Id, minted: Minted, d: Digest)
    requires minted.family !in db.families && minted.token !in db.tokens
    ensures Grows(db, IssueFamily(db, user, minted, d))
  {
  }

  lemma OpeningGrows(db: Db, user: Id, email: Email, c: Id)
    ensures OpenReset(db, user, c).Some? ==> ChallengesGrow(db.challenges, OpenReset(db, user, c).value.0)
    ensures var widened := OpenRegistration(db, email, c);
      widened.Some? ==> RegistrationsGrow(db.registrations, widened.value.0)
  {
  }

  lemma MailTokenGrows(tokens: MailTokens, t: Id, token: MailToken)
    requires t !in tokens
    ensures MailTokensGrow(tokens, tokens[t := token])
  {
  }

  lemma RequestResetGrows(db: Db, user: Id, email: Email, c: Id, t: Id, candidates: seq<Digest>)
    ensures Grows(db, RequestReset(db, user, email, c, t, candidates).db)
  {
    hide UsersGrow, FamiliesGrow, TokensGrow, ChallengesGrow, RegistrationsGrow, MailTokensGrow, FirstFreeMail,
      OpenReset;
    var tx := RequestReset(db, user, email, c, t, candidates);
    Unchanged(db, tx.db);
    OpeningGrows(db, user, email, c);
    if tx.outcome.ResetIssued? { MailTokenGrows(db.resetTokens, t, tx.db.resetTokens[t]); }
  }

  lemma RequestRegistrationGrows(db: Db, email: Email, allowed: bool, c: Id, t: Id, candidates: seq<Digest>)
    ensures Grows(db, RequestRegistration(db, email, allowed, c, t, candidates).db)
  {
    hide UsersGrow, FamiliesGrow, TokensGrow, ChallengesGrow, RegistrationsGrow, MailTokensGrow, FirstFreeMail,
      OpenRegistration, EmailTaken;
    var tx := RequestRegistration(db, email, allowed, c, t, candidates);
    Unchanged(db, tx.db);
    OpeningGrows(db, 0, email, c);
    if tx.outcome.RegistrationIssued? { MailTokenGrows(db.registrationTokens, t, tx.db.registrationTokens[t]); }
  }

  /** Tables a transaction does not touch have grown by nothing. */
  lemma Unchanged(a: Db, b: Db)
    ensures a.users == b.users ==> UsersGrow(a.users, b.users, a.hashes)
    ensures a.families == b.families ==> FamiliesGrow(a.families, b.families)
    ensures a.tokens == b.tokens ==> TokensGrow(a.tokens, b.tokens)
    ensures a.challenges == b.challenges ==> ChallengesGrow(a.challenges, b.challenges)
    ensures a.resetTokens == b.resetTokens ==> MailTokensGrow(a.resetTokens, b.resetTokens)
    ensures a.registrations == b.registrations ==> RegistrationsGrow(a.registrations, b.registrations)
    ensures a.registrationTokens == b.registrationTokens ==> MailTokensGrow(a.registrationTokens, b.registrationTokens)
  {
  }

  lemma LoginGrows(db: Db, user: Id, verified: Hash, minted: Minted)
    ensures Grows(db, Login(db, user, verified, minted).db)
  {
    hide Grows;
    GrowsReflexive(db);
    if ChosenDigest(db, minted).Some? { IssueFamilyGrows(db, user, minted, ChosenDigest(db, minted).value); }
  }

  lemma RefreshGrows(db: Db, target: Target, d: Digest, r: Id, candidates: seq<Digest>)
    ensures Grows(db, Refresh(db, target, d, r, candidates).db)
  {
    hide UsersGrow, FamiliesGrow, TokensGrow, ChallengesGrow, RegistrationsGrow, MailTokensGrow, FirstFree;
    var tx := Refresh(db, target, d, r, candidates);
    Unchanged(db, tx.db);
    if tx.outcome.ReuseRevoked? {
      RevocationGrows(db.families, target.family, db.now);
    } else if tx.outcome.Rotated? {
      RotationGrows(db, target, r, FirstFree(db.tokens, Attempts(candidates)).value);
    }
  }

  lemma RevocationGrows(families: Families, f: Id, now: Time)
    requires f in families
    ensures FamiliesGrow(families, families[f := Revoke(families[f], now)])
  {
  }

  lemma RotationGrows(db: Db, target: Target, r: Id, d: Digest)
    requires target.token in db.tokens && r !in db.tokens && db.tokens[target.token].usedAt.None?
    ensures TokensGrow(db.tokens, Rotate(db, target, r, d).tokens)
  {
  }

  lemma RevokeAllGrows(db: Db, user: Id)
    ensures FamiliesGrow(db.families, RevokeAll(db, user))
    ensures ChallengesGrow(db.challenges, RevokeAllChallenges(db, user))
  {
  }

  lemma LogoutGrows(db: Db, target: Target, d: Digest)
    ensures Grows(db, Logout(db, target, d).db)
  {
    Unchanged(db, Logout(db, target, d).db);
  }

  lemma ChangePasswordGrows(db: Db, target: Target, d: Digest, verified: Hash, hash: Hash, minted: Minted)
    requires hash !in db.hashes
    ensures Grows(db, ChangePassword(db, target, d, verified, hash, minted).db)
  {
    hide FamiliesGrow, TokensGrow, RegistrationsGrow, MailTokensGrow, ChallengesGrow, RevokeAll, RevokeAllChallenges,
      FirstFree;
    var tx := ChangePassword(db, target, d, verified, hash, minted);
    Unchanged(db, tx.db);
    RevokeAllGrows(db, target.user);
    if tx.outcome.PasswordChanged? {
      IssueFamilyGrows(db, target.user, minted, ChosenDigest(db, minted).value);
      assert UsersGrow(db.users, tx.db.users, db.hashes);
    }
  }

  lemma CompleteResetGrows(db: Db, mail: MailTarget, d: Digest, verified: Hash, hash: Hash)
    requires hash !in db.hashes
    ensures Grows(db, CompleteReset(db, mail, d, verified, hash).db)
  {
    hide TokensGrow, RegistrationsGrow, RevokeAll, FamiliesGrow, UsersGrow, ChallengesGrow, MailTokensGrow;
    var tx := CompleteReset(db, mail, d, verified, hash);
    Unchanged(db, tx.db);
    RevokeAllGrows(db, mail.owner);
    if tx.outcome.PasswordReset? {
      NewHashGrows(db.users, mail.owner, hash, db.hashes);
      ResetDoneGrows(db, mail);
    }
  }

  lemma NewHashGrows(users: Users, u: Id, hash: Hash, seen: set<Hash>)
    requires u in users && hash !in seen
    ensures UsersGrow(users, users[u := users[u].(hash := hash)], seen)
  {
  }

  lemma ResetDoneGrows(db: Db, mail: MailTarget)
    requires mail.challenge in db.challenges && db.challenges[mail.challenge].status == Active
    requires mail.token in db.resetTokens && db.resetTokens[mail.token].usedAt.None?
    ensures ChallengesGrow(db.challenges, db.challenges[mail.challenge :=
              db.challenges[mail.challenge].(status := Completed, completedAt := Some(db.now))])
    ensures MailTokensGrow(db.resetTokens, db.resetTokens[mail.token :=
              db.resetTokens[mail.token].(usedAt := Some(db.now))])
  {
  }

  lemma CompleteRegistrationGrows(
    db: Db, mail: MailTarget, d: Digest, allowed: bool, user: Id, hash: Hash, minted: Minted)
    ensures Grows(db, CompleteRegistration(db, mail, d, allowed, user, hash, minted).db)
  {
    hide UsersGrow, FamiliesGrow, TokensGrow, ChallengesGrow, RegistrationsGrow, MailTokensGrow, FirstFree, EmailTaken;
    var tx := CompleteRegistration(db, mail, d, allowed, user, hash, minted);
    Unchanged(db, tx.db);
    if tx.outcome.Registered? {
      NewRowsGrow(db, user, User(mail.owner, hash, true), minted.family, NewFamily(db, user), minted.token,
                  tx.db.tokens[minted.token]);
      RegistrationDoneGrows(db, mail);
    }
  }

  lemma NewRowsGrow(db: Db, u: Id, user: User, f: Id, family: Family, t: Id, token: Token)
    requires u !in db.users && f !in db.families && t !in db.tokens
    ensures UsersGrow(db.users, db.users[u := user], db.hashes)
    ensures FamiliesGrow(db.families, db.families[f := family]) && TokensGrow(db.tokens, db.tokens[t := token])
  {
  }

  lemma RegistrationDoneGrows(db: Db, mail: MailTarget)
    requires mail.challenge in db.registrations && db.registrations[mail.challenge].status == Active
    requires mail.token in db.registrationTokens && db.registrationTokens[mail.token].usedAt.None?
    ensures RegistrationsGrow(db.registrations, db.registrations[mail.challenge :=
              db.registrations[mail.challenge].(status := Completed, completedAt := Some(db.now))])
    ensures MailTokensGrow(db.registrationTokens, db.registrationTokens[mail.token :=
              db.registrationTokens[mail.token].(usedAt := Some(db.now))])
  {
  }

  lemma AddUserGrows(db: Db, user: Id, email: Email, hash: Hash)
    ensures Grows(db, AddUser(db, user, email, hash).db)
  {
    Unchanged(db, AddUser(db, user, email, hash).db);
  }

  lemma ChangeStatusGrows(db: Db, user: Id, active: bool)
    ensures Grows(db, ChangeStatus(db, user, active).db)
  {
    hide FamiliesGrow, TokensGrow, ChallengesGrow, RegistrationsGrow, MailTokensGrow, RevokeAll, RevokeAllChallenges;
    Unchanged(db, ChangeStatus(db, user, active).db);
    RevokeAllGrows(db, user);
  }

  lemma ExecGrows(s: Sys, step: Step)
    requires HasherIsFresh(s, step)
    ensures Grows(s.db, Exec(s, step).sys.db)
  {
    hide Grows, Login, Refresh, Logout, ChangePassword, CompleteReset, CompleteRegistration, RequestReset,
      RequestRegistration,
         ChangeStatus, AddUser, FindRefresh, FindReset, FindRegistration, ReadLogin, ReadChange, ReadReset;
    GrowsReflexive(s.db);
    var db := s.db;
    match step
    case BeginLogin(r, email, matches) =>
    case BeginRefresh(r, d) =>
    case BeginLogout(r, d) =>
    case BeginChange(r, d, principal, matches) =>
    case BeginReset(r, d) =>
    case BeginRegister(r, d) =>
    case CommitLogin(r, minted) =>
      if r in s.pending && s.pending[r].LoginPending? {
        LoginGrows(db, s.pending[r].user, s.pending[r].verified, minted);
      }
    case CommitRefresh(r, replacement, candidates) =>
      if r in s.pending && s.pending[r].RefreshPending? {
        RefreshGrows(db, s.pending[r].target, s.pending[r].digest, replacement, candidates);
      }
    case CommitLogout(r) =>
      if r in s.pending && s.pending[r].LogoutPending? { LogoutGrows(db, s.pending[r].target, s.pending[r].digest); }
    case CommitChange(r, hash, minted) =>
      if r in s.pending && s.pending[r].ChangePending? {
        ChangePasswordGrows(db, s.pending[r].target, s.pending[r].digest, s.pending[r].verified, hash, minted);
      }
    case CommitReset(r, hash) =>
      if r in s.pending && s.pending[r].ResetPending? {
        CompleteResetGrows(db, s.pending[r].mail, s.pending[r].digest, s.pending[r].verified, hash);
      }
    case CommitRegister(r, allowed, user, hash, minted) =>
      if r in s.pending && s.pending[r].RegisterPending? {
        CompleteRegistrationGrows(db, s.pending[r].mail, s.pending[r].digest, allowed, user, hash, minted);
      }
    case AskReset(user, email, c, t, candidates) => RequestResetGrows(db, user, email, c, t, candidates);
    case AskRegistration(email, allowed, c, t, candidates) =>
      RequestRegistrationGrows(db, email, allowed, c, t, candidates);
    case SetStatus(user, active) => ChangeStatusGrows(db, user, active);
    case Bootstrap(user, email, hash) => AddUserGrows(db, user, email, hash);
    case Wait(elapsed) => TimeGrows(db, elapsed);
  }

  lemma GrowsReflexive(db: Db)
    ensures Grows(db, db)
  {
  }

  lemma TimeGrows(db: Db, elapsed: nat)
    ensures Grows(db, db.(now := db.now + elapsed))
  {
  }

  lemma LastStep(run: seq<Step>, j: nat)
    requires 0 < j <= |run|
    ensures After(run[..j]) == Exec(After(run[..j - 1]), run[j - 1]).sys
  {
    assert run[..j][..j - 1] == run[..j - 1];
  }

  lemma {:induction false} RunGrows(run: seq<Step>, i: nat, j: nat)
    requires Legal(run) && i <= j <= |run|
    ensures Grows(StateAt(run, i), StateAt(run, j))
    decreases j
  {
    hide Grows;
    if i == j {
      GrowsReflexive(StateAt(run, i));
    } else {
      RunGrows(run, i, j - 1);
      LastStep(run, j);
      ExecGrows(After(run[..j - 1]), run[j - 1]);
      GrowsTransitive(StateAt(run, i), StateAt(run, j - 1), StateAt(run, j));
    }
  }

  // ------------------------------------------------------- tokens take effect once

  /** The step rotated the token, changed a password with it, or signed out with it. */
  predicate Consumes(o: Outcome, t: Id) {
    (o.Rotated? || o.PasswordChanged? || o.SignedOut?) && o.token == t
  }

  /** Nothing can be obtained with the token: it was used, or its family left ACTIVE. */
  predicate Spent(db: Db, t: Id) {
    t in db.tokens && db.tokens[t].family in db.families
    && (db.tokens[t].usedAt.Some? || !db.families[db.tokens[t].family].active)
  }

  lemma RotationSpends(db: Db, target: Target, d: Digest, r: Id, candidates: seq<Digest>)
    requires Refresh(db, target, d, r, candidates).outcome.Rotated?
    ensures var tx := Refresh(db, target, d, r, candidates);
            Live(db, target, d) && tx.outcome.token == target.token && Spent(tx.db, target.token)
  {
    hide FirstFree;
  }

  lemma SignOutSpends(db: Db, target: Target, d: Digest)
    requires Logout(db, target, d).outcome.SignedOut?
    ensures var tx := Logout(db, target, d);
            Live(db, target, d) && tx.outcome.token == target.token && Spent(tx.db, target.token)
  {
  }

  lemma ChangeSpends(db: Db, target: Target, d: Digest, verified: Hash, hash: Hash, minted: Minted)
    requires ChangePassword(db, target, d, verified, hash, minted).outcome.PasswordChanged?
    ensures var tx := ChangePassword(db, target, d, verified, hash, minted);
            Live(db, target, d) && tx.outcome.token == target.token && Spent(tx.db, target.token)
  {
    hide FirstFree;
    var tx := ChangePassword(db, target, d, verified, hash, minted);
    assert tx.db.families[target.family] == RevokeAll(db, target.user)[target.family];
  }

  lemma ConsumingSpends(s: Sys, step: Step, t: Id)
    requires Consumes(Exec(s, step).outcome, t)
    ensures !Spent(s.db, t) && Spent(Exec(s, step).sys.db, t)
    ensures t in s.db.tokens && s.db.tokens[t].family in s.db.families
    ensures s.db.now < s.db.families[s.db.tokens[t].family].expiresAt
  {
    hide FirstFree, FindRefresh, FindReset, FindRegistration, ReadLogin, ReadChange, ReadReset, RevokeAll,
      RevokeAllChallenges;
    var p := s.pending[step.request];
    match step
    case CommitRefresh(r, replacement, candidates) => RotationSpends(s.db, p.target, p.digest, replacement, candidates);
    case CommitLogout(r) => SignOutSpends(s.db, p.target, p.digest);
    case CommitChange(r, hash, minted) => ChangeSpends(s.db, p.target, p.digest, p.verified, hash, minted);
  }

  lemma SpentIsFinal(a: Db, b: Db, t: Id)
    requires Grows(a, b) && Spent(a, t)
    ensures Spent(b, t)
  {
  }

  /** Under any interleaving a refresh token takes effect at most once. */
  lemma TokenTakesEffectOnce(run: seq<Step>, i: nat, j: nat, t: Id)
    requires Legal(run) && i <= j < |run|
    requires Consumes(OutcomeAt(run, i), t) && Consumes(OutcomeAt(run, j), t)
    ensures i == j
  {
    hide Grows, Consumes;
    ConsumingSpends(After(run[..i]), run[i], t);
    ConsumingSpends(After(run[..j]), run[j], t);
    if i < j {
      LastStep(run, i + 1);
      RunGrows(run, i + 1, j);
      SpentIsFinal(StateAt(run, i + 1), StateAt(run, j), t);
    }
  }

  /** The step obtained something through the family, with any of its tokens. */
  predicate Draws(o: Outcome, f: Id) { (o.Rotated? || o.PasswordChanged? || o.SignedOut?) && o.family == f }

  /** Only an ACTIVE, unexpired family is drawn on, and with a token of its own. */
  lemma DrawingIsLive(s: Sys, step: Step, f: Id)
    requires Draws(Exec(s, step).outcome, f)
    ensures f in s.db.families && s.db.families[f].active && s.db.now < s.db.families[f].expiresAt
    ensures var t := Exec(s, step).outcome.token; t in s.db.tokens && s.db.tokens[t].family == f
  {
    hide FirstFree, FindRefresh, FindReset, FindRegistration, ReadLogin, ReadChange, ReadReset, RevokeAll,
      RevokeAllChallenges;
    var p := s.pending[step.request];
    match step
    case CommitRefresh(r, replacement, candidates) => RotationSpends(s.db, p.target, p.digest, replacement, candidates);
    case CommitLogout(r) => SignOutSpends(s.db, p.target, p.digest);
    case CommitChange(r, hash, minted) => ChangeSpends(s.db, p.target, p.digest, p.verified, hash, minted);
  }

  lemma InactiveIsFinal(a: Db, b: Db, f: Id)
    requires Grows(a, b) && f in a.families && !a.families[f].active
    ensures f in b.families && b.families[f] == a.families[f]
  {
  }

  predicate RevokedAt(db: Db, f: Id, at: Time) {
    f in db.families && !db.families[f].active && db.families[f].revokedAt == Some(at)
  }

  /** The step at `k` obtains nothing through the family: not by name, and not with any of its tokens. */
  predicate GrantsNothing(run: seq<Step>, k: nat, f: Id)
    requires k < |run|
  {
    && !Draws(OutcomeAt(run, k), f)
    && forall t :: t in StateAt(run, k).tokens && StateAt(run, k).tokens[t].family == f
         ==> !Consumes(OutcomeAt(run, k), t)
  }

  /**
   A family that left ACTIVE grants nothing ever again, through any token it has or gets, also
   after its user is enabled again.
   */
  lemma InactiveFamilyGrantsNothing(run: seq<Step>, i: nat, j: nat, f: Id)
    requires Legal(run) && i <= j < |run|
    requires f in StateAt(run, i).families && !StateAt(run, i).families[f].active
    ensures f in StateAt(run, j).families && StateAt(run, j).families[f] == StateAt(run, i).families[f]
    ensures GrantsNothing(run, j, f)
  {
    hide Grows;
    RunGrows(run, i, j);
    InactiveIsFinal(StateAt(run, i), StateAt(run, j), f);
    var o := OutcomeAt(run, j);
    hide Exec;
    if o.Rotated? || o.PasswordChanged? || o.SignedOut? { DrawingIsLive(After(run[..j]), run[j], o.family); }
  }

  predicate LiveFamily(db: Db, f: Id) {
    f in db.families && db.families[f].active && db.now < db.families[f].expiresAt
  }

  predicate InGrace(db: Db, t: Id)
    requires t in db.tokens && db.tokens[t].usedAt.Some?
  {
    db.now <= db.tokens[t].usedAt.value + GRACE
  }

  /** One refresh with a used token: refused; its only possible effect is the revocation of its live family. */
  lemma ResubmissionOfUsedToken(db: Db, target: Target, d: Digest, r: Id, candidates: seq<Digest>)
    requires target.token in db.tokens && db.tokens[target.token].usedAt.Some?
    ensures var tx := Refresh(db, target, d, r, candidates);
      var reused := CurrentUser(db, target.user) && Locked(db, target, d) && LiveFamily(db, target.family)
                    && !InGrace(db, target.token);
      && (!reused ==> tx.db == db && tx.outcome.Refused?)
      && (reused ==> tx.outcome.ReuseRevoked?
                     && tx.db == db.(families := db.families[target.family :=
                          db.families[target.family].(active := false, revokedAt := Some(db.now))]))
  {
  }

  /** The step at `j` refreshes with the token of `target`. */
  predicate Presents(run: seq<Step>, j: nat, target: Target, d: Digest)
    requires j < |run|
  {
    run[j].CommitRefresh? && run[j].request in After(run[..j]).pending
    && After(run[..j]).pending[run[j].request] == RefreshPending(target, d)
  }

  /** The reuse that is punished: of a current user's locked token, late, against a live family. */
  predicate Reused(db: Db, target: Target, d: Digest)
    requires target.token in db.tokens && db.tokens[target.token].usedAt.Some?
  {
    CurrentUser(db, target.user) && Locked(db, target, d) && LiveFamily(db, target.family) && !InGrace(db, target.token)
  }

  lemma PresentedAgain(run: seq<Step>, j: nat, target: Target, d: Digest)
    requires j < |run| && Presents(run, j, target, d)
    requires target.token in StateAt(run, j).tokens && StateAt(run, j).tokens[target.token].usedAt.Some?
    ensures var db := StateAt(run, j);
      if Reused(db, target, d)
      then OutcomeAt(run, j).ReuseRevoked? && RevokedAt(StateAt(run, j + 1), target.family, db.now)
      else OutcomeAt(run, j).Refused? && StateAt(run, j + 1) == db
  {
    hide Refresh, Locked;
    LastStep(run, j + 1);
    ResubmissionOfUsedToken(StateAt(run, j), target, d, run[j].replacement, run[j].candidates);
  }

  /**
   A token already used is presented again, at any point of any run. Within ten seconds of its
   use nothing changes. Later, against a live family, the family is REVOKED from then on and
   nothing is ever obtained through it again, with any token, however late it was issued.
   */
  lemma ReuseEndsTheFamily(run: seq<Step>, j: nat, k: nat, target: Target, d: Digest)
    requires Legal(run) && j < k <= |run| && Presents(run, j, target, d)
    requires var db := StateAt(run, j); target.token in db.tokens && db.tokens[target.token].usedAt.Some?
    ensures var db := StateAt(run, j);
      if Reused(db, target, d)
      then OutcomeAt(run, j).ReuseRevoked? && RevokedAt(StateAt(run, k), target.family, db.now)
           && (k < |run| ==> GrantsNothing(run, k, target.family))
      else OutcomeAt(run, j).Refused? && StateAt(run, j + 1) == db
  {
    PresentedAgain(run, j, target, d);
    hide Grows, Exec, Reused, Presents, GrantsNothing;
    if Reused(StateAt(run, j), target, d) {
      RunGrows(run, j + 1, k);
      InactiveIsFinal(StateAt(run, j + 1), StateAt(run, k), target.family);
      if k < |run| { InactiveFamilyGrantsNothing(run, j + 1, k, target.family); }
    }
  }

  // ----------------------------------------------------------- compare-and-swap

  /** The hash the outcome replaced, with its user. */
  function Replaced(o: Outcome): Option<(Id, Hash)> {
    if o.PasswordChanged? || o.PasswordReset? then Some((o.user, o.verified)) else None
  }

  lemma ReplacingMoves(s: Sys, step: Step)
    requires HasherIsFresh(s, step) && Inv(s.db) && Replaced(Exec(s, step).outcome).Some?
    ensures var (u, h) := Replaced(Exec(s, step).outcome).value;
            u in s.db.users && s.db.users[u].hash == h && h in s.db.hashes
            && u in Exec(s, step).sys.db.users && Exec(s, step).sys.db.users[u].hash != h
  {
    hide FirstFree, FindRefresh, FindReset, FindRegistration, RevokeAll, RevokeAllChallenges;
    hide FamiliesOk, TokensOk, ChainsOk, ChallengesOk, RegistrationsOk, MailTokensOk;
  }

  /** A hash that was replaced never comes back. */
  lemma HashNeverReturns(a: Db, b: Db, u: Id, h: Hash)
    requires Grows(a, b) && u in a.users && a.users[u].hash != h && h in a.hashes
    ensures u in b.users && b.users[u].hash != h && h in b.hashes
  {
    hide FamiliesGrow, TokensGrow, ChallengesGrow, RegistrationsGrow, MailTokensGrow;
  }

  /** From any stored hash at most one change or reset commits. */
  lemma HashIsReplacedOnce(run: seq<Step>, i: nat, j: nat)
    requires Legal(run) && i <= j < |run|
    requires Replaced(OutcomeAt(run, i)).Some? && Replaced(OutcomeAt(run, i)) == Replaced(OutcomeAt(run, j))
    ensures i == j
  {
    hide Grows, Inv, HasherIsFresh, Replaced;
    RunsKeepInvariant(run[..i]);
    RunsKeepInvariant(run[..j]);
    LegalAt(run, i);
    LegalAt(run, j);
    ReplacingMoves(After(run[..i]), run[i]);
    ReplacingMoves(After(run[..j]), run[j]);
    if i < j {
      var (u, h) := Replaced(OutcomeAt(run, i)).value;
      LastStep(run, i + 1);
      RunGrows(run, i, i + 1);
      HashesGrow(StateAt(run, i), StateAt(run, i + 1));
      RunGrows(run, i + 1, j);
      HashNeverReturns(StateAt(run, i + 1), StateAt(run, j), u, h);
    }
  }

  lemma LegalAt(run: seq<Step>, i: nat)
    requires Legal(run) && i < |run|
    ensures HasherIsFresh(After(run[..i]), run[i])
  {
  }

  lemma HashesGrow(a: Db, b: Db)
    requires Grows(a, b)
    ensures a.hashes <= b.hashes
  {
  }

  // ------------------------------------------------- snapshots are still current

  /** The user and hash a request read before its slow work. */
  function SnapshotOf(p: Pending): Option<(Id, Hash)> {
    match p
    case LoginPending(u, h) => Some((u, h))
    case ChangePending(t, _, h) => Some((t.user, h))
    case ResetPending(m, _, h) => Some((m.owner, h))
    case _ => None
  }

  predicate Stored(db: Db, snap: (Id, Hash)) { snap.0 in db.users && db.users[snap.0].hash == snap.1 }

  /** The user and hash the outcome rests on, if it grants on a password. */
  function RestsOn(o: Outcome): Option<(Id, Hash)> {
    if o.LoggedIn? || o.PasswordChanged? || o.PasswordReset? then Some((o.user, o.verified)) else None
  }

  lemma ReadsWhatIsStored(s: Sys, step: Step, r: Id)
    requires r !in s.pending && r in Exec(s, step).sys.pending
    ensures SnapshotOf(Exec(s, step).sys.pending[r]).Some? ==>
              Stored(s.db, SnapshotOf(Exec(s, step).sys.pending[r]).value)
    ensures Exec(s, step).sys.db == s.db
  {
    hide FindRefresh, FindReset, FindRegistration, Live;
  }

  lemma PendingKept(s: Sys, step: Step, r: Id)
    requires r in s.pending && r in Exec(s, step).sys.pending
    ensures Exec(s, step).sys.pending[r] == s.pending[r]
  {
    hide FindRefresh, FindReset, FindRegistration, ReadLogin, ReadChange, ReadReset, Login, Refresh, Logout,
      ChangePassword,
         CompleteReset, CompleteRegistration, RequestReset, RequestRegistration, ChangeStatus, AddUser;
  }

  /** Every waiting request read its snapshot at some earlier point of the run. */
  lemma {:induction false} SnapshotWasRead(run: seq<Step>, r: Id) returns (i: nat)
    requires r in After(run).pending
    ensures i <= |run|
    ensures SnapshotOf(After(run).pending[r]).Some? ==> Stored(StateAt(run, i), SnapshotOf(After(run).pending[r]).value)
    ensures i < |run| && r !in After(run[..i]).pending
    ensures forall k :: i < k <= |run| ==> r in After(run[..k]).pending
  {
    hide Stored, SnapshotOf, Exec;
    var n := |run| - 1;
    var front := run[..n];
    assert After(run) == Exec(After(front), run[n]).sys;
    assert run[..|run|] == run;
    if r in After(front).pending {
      i := SnapshotWasRead(front, r);
      PendingKept(After(front), run[n], r);
      assert front[..i] == run[..i];
      forall k | i < k <= |run| ensures r in After(run[..k]).pending {
        if k <= n { assert front[..k] == run[..k]; }
      }
    } else {
      ReadsWhatIsStored(After(front), run[n], r);
      i := n;
    }
  }

  lemma GrantsOnPending(s: Sys, step: Step)
    requires RestsOn(Exec(s, step).outcome).Some?
    ensures (step.CommitLogin? || step.CommitChange? || step.CommitReset?) && step.request in s.pending
    ensures SnapshotOf(s.pending[step.request]) == RestsOn(Exec(s, step).outcome)
    ensures Stored(s.db, RestsOn(Exec(s, step).outcome).value)
  {
    hide FirstFree, FindRefresh, FindReset, FindRegistration, RevokeAll, RevokeAllChallenges;
  }

  lemma StoredThroughout(a: Db, b: Db, c: Db, snap: (Id, Hash))
    requires Grows(a, b) && Grows(b, c) && Stored(a, snap) && Stored(c, snap) && snap.1 in a.hashes
    ensures Stored(b, snap)
  {
    hide FamiliesGrow, TokensGrow, ChallengesGrow, RegistrationsGrow, MailTokensGrow;
    assert snap.0 in b.users;
  }

  lemma StoredIsSeen(db: Db, snap: (Id, Hash))
    requires Inv(db) && Stored(db, snap)
    ensures snap.1 in db.hashes
  {
    hide FamiliesOk, TokensOk, ChainsOk, ChallengesOk, RegistrationsOk, MailTokensOk;
  }

  /**
   A login, change or reset that commits at `j` read its hash at some point `i`, and the
   user's hash was that one at every point between: no other password change fell in between.
   */
  lemma VerifiedHashStayedCurrent(run: seq<Step>, j: nat) returns (i: nat)
    requires Legal(run) && j < |run| && RestsOn(OutcomeAt(run, j)).Some?
    ensures i < j && run[j].request !in After(run[..i]).pending && run[j].request in After(run[..i + 1]).pending
    ensures forall k :: i <= k <= j ==> Stored(StateAt(run, k), RestsOn(OutcomeAt(run, j)).value)
  {
    hide Grows, Inv, Stored, SnapshotOf, RestsOn, Exec;
    var s := After(run[..j]);
    GrantsOnPending(s, run[j]);
    var r := run[j].request;
    var snap := RestsOn(OutcomeAt(run, j)).value;
    i := SnapshotWasRead(run[..j], r);
    assert run[..j][..i] == run[..i];
    assert run[..j][..i + 1] == run[..i + 1];
    RunsKeepInvariant(run[..i]);
    StoredIsSeen(StateAt(run, i), snap);
    forall k | i <= k <= j ensures Stored(StateAt(run, k), snap) {
      RunGrows(run, i, k);
      RunGrows(run, k, j);
      StoredThroughout(StateAt(run, i), StateAt(run, k), StateAt(run, j), snap);
    }
  }

  // ------------------------------------------------------------------- lifetimes

  lemma LifetimesHold(db: Db, f: Id, c: Id, e: Id)
    requires Inv(db)
    ensures f in db.families ==> db.families[f].expiresAt == db.families[f].createdAt + FAMILY_LIFE
    ensures c in db.challenges ==> db.challenges[c].expiresAt == db.challenges[c].createdAt + RESET_LIFE
    ensures e in db.registrations ==> db.registrations[e].expiresAt == db.registrations[e].createdAt + REGISTRATION_LIFE
  {
    if f in db.families { assert FamilyOk(db.families[f], db.users.Keys, Enabled(db.users), db.now); }
    if c in db.challenges { assert ChallengeOk(db.challenges[c], db.users.Keys, Enabled(db.users), db.now); }
    if e in db.registrations { assert RegistrationOk(db.registrations[e], db.now); }
  }

  /** No rotation extends a session: whatever a family grants, it grants within 7 days of its creation. */
  lemma RefreshWithinLifetime(run: seq<Step>, i: nat, j: nat, f: Id)
    requires Legal(run) && i <= j < |run| && Draws(OutcomeAt(run, j), f) && f in StateAt(run, i).families
    ensures StateAt(run, j).now < StateAt(run, i).families[f].createdAt + FAMILY_LIFE
  {
    hide Inv, Draws, UsersGrow, TokensGrow, ChallengesGrow, RegistrationsGrow, MailTokensGrow;
    DrawingIsLive(After(run[..j]), run[j], f);
    RunGrows(run, i, j);
    RunsKeepInvariant(run[..j]);
    LifetimesHold(StateAt(run, j), f, 0, 0);
  }

  // --------------------------------------------------------- challenges complete once

  lemma ResetCompletes(s: Sys, step: Step, c: Id)
    requires Exec(s, step).outcome.PasswordReset? && Exec(s, step).outcome.challenge == c
    ensures c in s.db.challenges && s.db.challenges[c].status == Active && s.db.now < s.db.challenges[c].expiresAt
    ensures var next := Exec(s, step).sys.db; c in next.challenges && next.challenges[c].status == Completed
  {
    hide FirstFree, FindRefresh, FindReset, FindRegistration, RevokeAll, RevokeAllChallenges;
  }

  lemma RegistrationCompletes(s: Sys, step: Step, c: Id)
    requires Exec(s, step).outcome.Registered? && Exec(s, step).outcome.challenge == c
    ensures c in s.db.registrations && s.db.registrations[c].status == Active
      && s.db.now < s.db.registrations[c].expiresAt
    ensures var next := Exec(s, step).sys.db; c in next.registrations && next.registrations[c].status == Completed
  {
    hide FirstFree, FindRefresh, FindReset, FindRegistration, RevokeAll, RevokeAllChallenges;
  }

  /**
   A reset challenge completes only while ACTIVE and within 30 minutes of its creation, whatever
   was requested in between; having left ACTIVE it never completes, through any of its tokens.
   */
  lemma ResetCompletesOnlyWhileActive(run: seq<Step>, i: nat, j: nat, c: Id)
    requires Legal(run) && i <= j < |run|
    requires OutcomeAt(run, j).PasswordReset? && OutcomeAt(run, j).challenge == c && c in StateAt(run, i).challenges
    ensures StateAt(run, i).challenges[c].status == Active
    ensures StateAt(run, j).now < StateAt(run, i).challenges[c].createdAt + RESET_LIFE
  {
    hide Inv, UsersGrow, FamiliesGrow, TokensGrow, RegistrationsGrow, MailTokensGrow, Exec;
    ResetCompletes(After(run[..j]), run[j], c);
    RunGrows(run, i, j);
    RunsKeepInvariant(run[..j]);
    LifetimesHold(StateAt(run, j), 0, c, 0);
  }

  lemma ResetCompletesOnce(run: seq<Step>, i: nat, j: nat, c: Id)
    requires Legal(run) && i <= j < |run|
    requires OutcomeAt(run, i).PasswordReset? && OutcomeAt(run, i).challenge == c
    requires OutcomeAt(run, j).PasswordReset? && OutcomeAt(run, j).challenge == c
    ensures i == j
  {
    hide Exec;
    ResetCompletes(After(run[..i]), run[i], c);
    if i < j {
      LastStep(run, i + 1);
      ResetCompletesOnlyWhileActive(run, i + 1, j, c);
    }
  }

  lemma RegistrationCompletesOnlyWhileActive(run: seq<Step>, i: nat, j: nat, c: Id)
    requires Legal(run) && i <= j < |run|
    requires OutcomeAt(run, j).Registered? && OutcomeAt(run, j).challenge == c && c in StateAt(run, i).registrations
    ensures StateAt(run, i).registrations[c].status == Active
    ensures StateAt(run, j).now < StateAt(run, i).registrations[c].createdAt + REGISTRATION_LIFE
  {
    hide Inv, UsersGrow, FamiliesGrow, TokensGrow, ChallengesGrow, MailTokensGrow, Exec;
    RegistrationCompletes(After(run[..j]), run[j], c);
    RunGrows(run, i, j);
    RunsKeepInvariant(run[..j]);
    LifetimesHold(StateAt(run, j), 0, 0, c);
  }

  lemma RegistrationCompletesOnce(run: seq<Step>, i: nat, j: nat, c: Id)
    requires Legal(run) && i <= j < |run|
    requires OutcomeAt(run, i).Registered? && OutcomeAt(run, i).challenge == c
    requires OutcomeAt(run, j).Registered? && OutcomeAt(run, j).challenge == c
    ensures i == j
  {
    hide Exec;
    RegistrationCompletes(After(run[..i]), run[i], c);
    if i < j {
      LastStep(run, i + 1);
      RegistrationCompletesOnlyWhileActive(run, i + 1, j, c);
    }
  }
}
