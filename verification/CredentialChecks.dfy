/** The CHECK constraints, foreign keys and unique indexes of the credential tables, as the database states them. */
module CredentialChecks {
  import opened Wrappers
  import opened Ordering
  import opened Credentials
  import opened CredentialInvariants
  import opened CredentialProtocol

  // ------------------------------------------------------------------- constraints

  predicate FamilyCheck(x: Family) {
    && (if x.active then x.revokedAt.None? else x.revokedAt.Some?)
    && x.expiresAt > x.createdAt && (x.revokedAt.Some? ==> x.revokedAt.value >= x.createdAt)
  }

  predicate TokenCheck(t: Id, x: Token) {
    || (x.usedAt.None? && x.replacedBy.None?)
    || (x.usedAt.Some? && x.usedAt.value >= x.issuedAt && x.replacedBy.Some? && x.replacedBy.value != t)
  }

  /** A replacement is a token of the same family. */
  predicate ReplacementKey(tokens: Tokens, x: Token) {
    x.replacedBy.Some? ==> x.replacedBy.value in tokens && tokens[x.replacedBy.value].family == x.family
  }

  predicate ResetCheck(x: Challenge) {
    && (match x.status
        case Active => x.completedAt.None? && x.revokedAt.None?
        case Expired => x.completedAt.None? && x.revokedAt.None?
        case Completed => x.completedAt.Some? && x.revokedAt.None?
        case Revoked => x.completedAt.None? && x.revokedAt.Some?)
    && x.expiresAt > x.createdAt
    && (x.completedAt.Some? ==> x.createdAt <= x.completedAt.value < x.expiresAt)
    && (x.revokedAt.Some? ==> x.revokedAt.value >= x.createdAt)
  }

  predicate RegistrationCheck(x: Registration) {
    && (match x.status
        case Active => x.completedAt.None?
        case Expired => x.completedAt.None?
        case Completed => x.completedAt.Some?
        case Revoked => false)
    && x.expiresAt > x.createdAt
    && (x.completedAt.Some? ==> x.createdAt <= x.completedAt.value < x.expiresAt)
  }

  predicate MailTokenCheck(x: MailToken) { x.usedAt.Some? ==> x.usedAt.value >= x.issuedAt }

  predicate RefreshTables(db: Db) {
    && (forall f :: f in db.families ==> db.families[f].user in db.users && FamilyCheck(db.families[f]))
    && OneActiveFamily(db.families)
    && (forall t :: t in db.tokens ==>
          db.tokens[t].family in db.families && TokenCheck(t, db.tokens[t]) && ReplacementKey(db.tokens, db.tokens[t]))
    && (forall s, t :: s in db.tokens && t in db.tokens && db.tokens[s].digest == db.tokens[t].digest ==> s == t)
  }

  predicate MailTable(tokens: MailTokens, owners: set<Id>) {
    && (forall t :: t in tokens ==> tokens[t].challenge in owners && MailTokenCheck(tokens[t]))
    && (forall s, t :: s in tokens && t in tokens && tokens[s].digest == tokens[t].digest ==> s == t)
  }

  predicate ResetTables(db: Db) {
    && (forall c :: c in db.challenges ==> db.challenges[c].user in db.users && ResetCheck(db.challenges[c]))
    && OneActiveChallenge(db.challenges) && MailTable(db.resetTokens, db.challenges.Keys)
  }

  predicate RegistrationTables(db: Db) {
    && (forall c :: c in db.registrations ==> RegistrationCheck(db.registrations[c]))
    && OneActiveRegistration(db.registrations) && MailTable(db.registrationTokens, db.registrations.Keys)
  }

  // ------------------------------------------------------------------- every state

  /** On a chain every token but the last is used, not before its issue, by handing over to another of the family. */
  lemma ChainChecks(tokens: Tokens, owners: set<Id>, now: Time, f: Id, t: Id)
    requires TokensOk(tokens, owners, now) && HasChain(tokens, f) && t in tokens && tokens[t].family == f
    ensures TokenCheck(t, tokens[t]) && ReplacementKey(tokens, tokens[t])
  {
    var c :| IsChain(tokens, f, c);
    var i :| 0 <= i < |c| && c[i] == t;
    if i < |c| - 1 {
      assert HandsOver(tokens, c[i], c[i + 1]);
      assert c[i + 1] in c && c[i + 1] != c[i];
    }
  }

  lemma InvMeetsRefreshTables(db: Db)
    requires Inv(db)
    ensures RefreshTables(db)
  {
    hide ChallengesOk, MailTokensOk, RegistrationsOk, TokenCheck, ReplacementKey, IsChain;
    forall f | f in db.families ensures db.families[f].user in db.users && FamilyCheck(db.families[f]) {
      assert FamilyOk(db.families[f], db.users.Keys, Enabled(db.users), db.now);
    }
    forall t | t in db.tokens
      ensures db.tokens[t].family in db.families && TokenCheck(t, db.tokens[t]) && ReplacementKey(db.tokens,
          db.tokens[t])
    {
      assert HasChain(db.tokens, db.tokens[t].family);
      ChainChecks(db.tokens, db.families.Keys, db.now, db.tokens[t].family, t);
    }
  }

  lemma InvMeetsMailTables(db: Db)
    requires Inv(db)
    ensures ResetTables(db) && RegistrationTables(db)
  {
    hide FamiliesOk, TokensOk, ChainsOk, UsersOk;
    forall c | c in db.challenges ensures db.challenges[c].user in db.users && ResetCheck(db.challenges[c]) {
      assert ChallengeOk(db.challenges[c], db.users.Keys, Enabled(db.users), db.now);
    }
    forall c | c in db.registrations ensures RegistrationCheck(db.registrations[c]) {
      assert RegistrationOk(db.registrations[c], db.now);
    }
  }

  /** In every state of every interleaving all constraints of the credential tables hold. */
  lemma EveryConstraintHolds(run: seq<Step>)
    ensures RefreshTables(After(run).db) && ResetTables(After(run).db) && RegistrationTables(After(run).db)
  {
    hide RefreshTables, ResetTables, RegistrationTables, Inv;
    RunsKeepInvariant(run);
    InvMeetsRefreshTables(After(run).db);
    InvMeetsMailTables(After(run).db);
  }
}
