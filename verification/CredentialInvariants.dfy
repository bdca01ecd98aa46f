/** What every credential transaction keeps. */
module CredentialInvariants {
  import opened Wrappers
  import opened Ordering
  import opened Credentials

  type Users = map<Id, User>
  type Families = map<Id, Family>
  type Tokens = map<Id, Token>
  type Challenges = map<Id, Challenge>
  type Registrations = map<Id, Registration>
  type MailTokens = map<Id, MailToken>

  function Enabled(users: Users): set<Id> { set u | u in users && users[u].active }

  // ----------------------------------------------------------------- invariants

  /** Emails identify users, and every stored hash came from the hasher. */
  predicate UsersOk(users: Users, hashes: set<Hash>) {
    (forall u :: u in users ==> users[u].hash in hashes)
    && forall u, v :: u in users && v in users && users[u].email == users[v].email ==> u == v
  }

  predicate FamilyOk(x: Family, known: set<Id>, enabled: set<Id>, now: Time) {
    x.user in known && (x.active ==> x.user in enabled)
    && x.createdAt <= now && x.expiresAt == x.createdAt + FAMILY_LIFE
    && (x.active <==> x.revokedAt.None?) && (x.revokedAt.Some? ==> x.createdAt <= x.revokedAt.value)
  }

  predicate OneActiveFamily(families: Families) {
    forall f, g :: (f in families && g in families && families[f].active && families[g].active
                    && families[f].user == families[g].user) ==> f == g
  }

  predicate FamiliesOk(families: Families, known: set<Id>, enabled: set<Id>, now: Time) {
    (forall f :: f in families ==> FamilyOk(families[f], known, enabled, now)) && OneActiveFamily(families)
  }

  /** A token is used no earlier than it was issued, and neither lies ahead. */
  predicate TimesOk(issuedAt: Time, usedAt: Option<Time>, now: Time) {
    issuedAt <= now && (usedAt.Some? ==> issuedAt <= usedAt.value <= now)
  }

  predicate TokensOk(tokens: Tokens, owners: set<Id>, now: Time) {
    (forall t :: t in tokens ==> tokens[t].family in owners && TimesOk(tokens[t].issuedAt, tokens[t].usedAt, now))
    && forall s, t :: s in tokens && t in tokens && tokens[s].digest == tokens[t].digest ==> s == t
  }

  /** Token `s` was used by handing over to `t`, at the moment `t` was issued. */
  predicate HandsOver(tokens: Tokens, s: Id, t: Id) {
    s in tokens && t in tokens
    && tokens[s].replacedBy == Some(t) && tokens[s].usedAt == Some(tokens[t].issuedAt)
  }

  predicate Unused(t: Token) { t.usedAt.None? && t.replacedBy.None? }

  /** `c` lists all tokens of the family, each handing over to the next, the last one unused. */
  ghost predicate IsChain(tokens: Tokens, f: Id, c: seq<Id>) {
    c != [] && Distinct(c)
    && (forall t :: t in c <==> t in tokens && tokens[t].family == f)
    && (forall i :: 0 <= i < |c| - 1 ==> HandsOver(tokens, c[i], c[i + 1]))
    && c[|c| - 1] in tokens && Unused(tokens[c[|c| - 1]])
  }

  ghost predicate HasChain(tokens: Tokens, f: Id) { exists c :: IsChain(tokens, f, c) }

  ghost predicate ChainsOk(tokens: Tokens, owners: set<Id>) { forall f :: f in owners ==> HasChain(tokens, f) }

  predicate ChallengeOk(x: Challenge, known: set<Id>, enabled: set<Id>, now: Time) {
    x.user in known && (x.status == Active ==> x.user in enabled)
    && x.createdAt <= now && x.expiresAt == x.createdAt + RESET_LIFE
    && (x.completedAt.Some? <==> x.status == Completed) && (x.revokedAt.Some? <==> x.status == Revoked)
    && (x.completedAt.Some? ==> x.createdAt <= x.completedAt.value < x.expiresAt)
    && (x.revokedAt.Some? ==> x.createdAt <= x.revokedAt.value)
  }

  predicate OneActiveChallenge(challenges: Challenges) {
    forall c, e :: (c in challenges && e in challenges && challenges[c].status == Active
                    && challenges[e].status == Active && challenges[c].user == challenges[e].user) ==> c == e
  }

  predicate ChallengesOk(challenges: Challenges, known: set<Id>, enabled: set<Id>, now: Time) {
    (forall c :: c in challenges ==> ChallengeOk(challenges[c], known, enabled, now)) && OneActiveChallenge(challenges)
  }

  predicate RegistrationOk(x: Registration, now: Time) {
    x.createdAt <= now && x.expiresAt == x.createdAt + REGISTRATION_LIFE
    && x.status != Revoked && (x.completedAt.Some? <==> x.status == Completed)
    && (x.completedAt.Some? ==> x.createdAt <= x.completedAt.value < x.expiresAt)
  }

  predicate OneActiveRegistration(registrations: Registrations) {
    forall c, e :: (c in registrations && e in registrations && registrations[c].status == Active
                    && registrations[e].status == Active
                    && registrations[c].email == registrations[e].email) ==> c == e
  }

  predicate RegistrationsOk(registrations: Registrations, now: Time) {
    (forall c :: c in registrations ==> RegistrationOk(registrations[c], now)) && OneActiveRegistration(registrations)
  }

  /** Mailed tokens belong to challenges, have distinct digests, and at most one per challenge is used. */
  predicate MailTokensOk(tokens: MailTokens, owners: set<Id>, completed: set<Id>, now: Time) {
    (forall t :: t in tokens ==>
      tokens[t].challenge in owners && TimesOk(tokens[t].issuedAt, tokens[t].usedAt, now))
    && (forall t :: t in tokens && tokens[t].usedAt.Some? ==> tokens[t].challenge in completed)
    && (forall s, t :: s in tokens && t in tokens && tokens[s].digest == tokens[t].digest ==> s == t)
    && forall s, t :: (s in tokens && t in tokens && tokens[s].usedAt.Some? && tokens[t].usedAt.Some?
                       && tokens[s].challenge == tokens[t].challenge) ==> s == t
  }

  function Done(challenges: Challenges): set<Id> { set c | c in challenges && challenges[c].status == Completed }

  function DoneRegistrations(rs: Registrations): set<Id> { set c | c in rs && rs[c].status == Completed }

  ghost predicate Inv(db: Db) {
    UsersOk(db.users, db.hashes)
    && FamiliesOk(db.families, db.users.Keys, Enabled(db.users), db.now)
    && TokensOk(db.tokens, db.families.Keys, db.now)
    && ChainsOk(db.tokens, db.families.Keys)
    && ChallengesOk(db.challenges, db.users.Keys, Enabled(db.users), db.now)
    && MailTokensOk(db.resetTokens, db.challenges.Keys, Done(db.challenges), db.now)
    && RegistrationsOk(db.registrations, db.now)
    && MailTokensOk(db.registrationTokens, db.registrations.Keys, DoneRegistrations(db.registrations), db.now)
  }

  // -------------------------------------------------------------- rotation chains

  /** A chain's only unused token is its last one. */
  lemma OnlyLastIsUnused(tokens: Tokens, f: Id, c: seq<Id>, t: Id)
    requires IsChain(tokens, f, c) && t in tokens && tokens[t].family == f && tokens[t].usedAt.None?
    ensures t == c[|c| - 1]
  {
    forall j | 0 <= j < |c| - 1 ensures c[j] in tokens && tokens[c[j]].usedAt.Some? {
      assert HandsOver(tokens, c[j], c[j + 1]);
    }
  }

  lemma ChainElsewhere(tokens: Tokens, next: Tokens, g: Id)
    requires HasChain(tokens, g)
    requires forall t :: t in tokens && tokens[t].family == g ==> t in next && next[t] == tokens[t]
    requires forall t :: t in next && next[t].family == g ==> t in tokens && tokens[t].family == g
    ensures HasChain(next, g)
  {
    var c :| IsChain(tokens, g, c);
    forall i | 0 <= i < |c| - 1 ensures HandsOver(next, c[i], c[i + 1]) {
      assert HandsOver(tokens, c[i], c[i + 1]);
      assert c[i] in c && c[i + 1] in c;
    }
    assert c[|c| - 1] in c;
    assert IsChain(next, g, c);
  }

  /** The tokens after `t` was used at `now` and replaced by `r`. */
  function RotatedTokens(tokens: Tokens, f: Id, t: Id, r: Id, d: Digest, now: Time): Tokens
    requires t in tokens
  {
    tokens[r := Token(f, d, now, None, None)][t := tokens[t].(usedAt := Some(now), replacedBy := Some(r))]
  }

  /** A rotation lengthens the family's chain by the replacement and changes nothing before its end. */
  lemma RotationExtendsChain(tokens: Tokens, f: Id, c: seq<Id>, t: Id, r: Id, d: Digest, now: Time)
    requires IsChain(tokens, f, c) && t in tokens && tokens[t].family == f && tokens[t].usedAt.None? && r !in tokens
    ensures t == c[|c| - 1] && IsChain(RotatedTokens(tokens, f, t, r, d, now), f, c + [r])
  {
    var next := RotatedTokens(tokens, f, t, r, d, now);
    OnlyLastIsUnused(tokens, f, c, t);
    var longer := c + [r];
    assert forall s :: s in c ==> s in tokens;
    forall i | 0 <= i < |longer| - 1 ensures HandsOver(next, longer[i], longer[i + 1]) {
      if i < |c| - 1 {
        assert HandsOver(tokens, c[i], c[i + 1]);
        assert c[i] in c && c[i + 1] in c && c[i] != t;
      }
    }
    assert forall s :: s in longer <==> s in c || s == r;
  }

  lemma RotationKeepsTokens(tokens: Tokens, owners: set<Id>, now: Time, f: Id, t: Id, r: Id, d: Digest)
    requires TokensOk(tokens, owners, now) && ChainsOk(tokens, owners) && f in owners
    requires t in tokens && tokens[t].family == f && tokens[t].usedAt.None?
    requires r !in tokens && !DigestTaken(tokens, d)
    ensures var next := RotatedTokens(tokens, f, t, r, d, now); TokensOk(next, owners, now) && ChainsOk(next, owners)
  {
    hide IsChain;
    var next := RotatedTokens(tokens, f, t, r, d, now);
    forall g | g in owners ensures HasChain(next, g) {
      hide TokensOk;
      if g == f {
        var c :| IsChain(tokens, f, c);
        RotationExtendsChain(tokens, f, c, t, r, d, now);
      } else {
        ChainElsewhere(tokens, next, g);
      }
    }
    RotationKeepsDigests(tokens, owners, now, f, t, r, d);
  }

  lemma RotationKeepsDigests(tokens: Tokens, owners: set<Id>, now: Time, f: Id, t: Id, r: Id, d: Digest)
    requires TokensOk(tokens, owners, now) && f in owners
    requires t in tokens && tokens[t].family == f && r !in tokens && !DigestTaken(tokens, d)
    ensures TokensOk(RotatedTokens(tokens, f, t, r, d, now), owners, now)
  {
  }

  lemma NewTokenIsOk(tokens: Tokens, owners: set<Id>, now: Time, f: Id, t: Id, d: Digest)
    requires TokensOk(tokens, owners, now) && t !in tokens && !DigestTaken(tokens, d)
    ensures TokensOk(tokens[t := Token(f, d, now, None, None)], owners + {f}, now)
  {
  }

  /** A family's first token is a chain by itself. */
  lemma FirstTokenKeepsTokens(tokens: Tokens, owners: set<Id>, now: Time, f: Id, t: Id, d: Digest)
    requires TokensOk(tokens, owners, now) && ChainsOk(tokens, owners)
    requires f !in owners && t !in tokens && !DigestTaken(tokens, d)
    ensures var next := tokens[t := Token(f, d, now, None, None)];
            TokensOk(next, owners + {f}, now) && ChainsOk(next, owners + {f})
  {
    var next := tokens[t := Token(f, d, now, None, None)];
    NewTokenIsOk(tokens, owners, now, f, t, d);
    assert forall s :: s in tokens ==> tokens[s].family != f;
    hide TokensOk;
    forall g | g in owners + {f} ensures HasChain(next, g) {
      if g == f { assert IsChain(next, f, [t]); } else { ChainElsewhere(tokens, next, g); }
    }
  }

  // --------------------------------------------------------------------- families

  lemma FamilyIssued(db: Db, user: Id, f: Id)
    requires FamiliesOk(db.families, db.users.Keys, Enabled(db.users), db.now) && CurrentUser(db, user)
    requires f !in db.families
    ensures FamiliesOk(RevokeAll(db, user)[f := NewFamily(db, user)], db.users.Keys, Enabled(db.users), db.now)
  {
    var next := RevokeAll(db, user)[f := NewFamily(db, user)];
    forall g | g in next ensures FamilyOk(next[g], db.users.Keys, Enabled(db.users), db.now) {
      if g != f { assert FamilyOk(db.families[g], db.users.Keys, Enabled(db.users), db.now); }
    }
  }

  /** After revocation the user may be disabled: no ACTIVE family of theirs is left. */
  lemma FamiliesRevoked(db: Db, user: Id, enabled: set<Id>)
    requires FamiliesOk(db.families, db.users.Keys, Enabled(db.users), db.now)
    requires Enabled(db.users) - {user} <= enabled
    ensures FamiliesOk(RevokeAll(db, user), db.users.Keys, enabled, db.now)
  {
    var next := RevokeAll(db, user);
    forall g | g in next ensures FamilyOk(next[g], db.users.Keys, enabled, db.now) {
      assert FamilyOk(db.families[g], db.users.Keys, Enabled(db.users), db.now);
    }
  }

  lemma FamilyRevoked(families: Families, known: set<Id>, enabled: set<Id>, now: Time, f: Id)
    requires FamiliesOk(families, known, enabled, now) && f in families
    ensures FamiliesOk(families[f := Revoke(families[f], now)], known, enabled, now)
  {
    assert FamilyOk(families[f], known, enabled, now);
  }

  lemma FamiliesWeaken(families: Families, known: set<Id>, enabled: set<Id>, now: Time,
                       known': set<Id>, enabled': set<Id>, now': Time)
    requires FamiliesOk(families, known, enabled, now) && known <= known' && enabled <= enabled' && now <= now'
    ensures FamiliesOk(families, known', enabled', now')
  {
    forall f | f in families ensures FamilyOk(families[f], known', enabled', now') {
      assert FamilyOk(families[f], known, enabled, now);
    }
  }

  lemma ChallengesRevoked(db: Db, user: Id, enabled: set<Id>)
    requires ChallengesOk(db.challenges, db.users.Keys, Enabled(db.users), db.now)
    requires Enabled(db.users) - {user} <= enabled
    ensures ChallengesOk(RevokeAllChallenges(db, user), db.users.Keys, enabled, db.now)
    ensures Done(RevokeAllChallenges(db, user)) == Done(db.challenges)
    ensures RevokeAllChallenges(db, user).Keys == db.challenges.Keys
  {
    var next := RevokeAllChallenges(db, user);
    forall c | c in next ensures ChallengeOk(next[c], db.users.Keys, enabled, db.now) {
      assert ChallengeOk(db.challenges[c], db.users.Keys, Enabled(db.users), db.now);
    }
  }

  lemma ChallengesWeaken(challenges: Challenges, known: set<Id>, enabled: set<Id>, now: Time,
                         known': set<Id>, enabled': set<Id>, now': Time)
    requires ChallengesOk(challenges, known, enabled, now) && known <= known' && enabled <= enabled' && now <= now'
    ensures ChallengesOk(challenges, known', enabled', now')
  {
    forall c | c in challenges ensures ChallengeOk(challenges[c], known', enabled', now') {
      assert ChallengeOk(challenges[c], known, enabled, now);
    }
  }

  // ------------------------------------------------------------------- generators

  lemma {:induction false} FirstFreeIsFree(tokens: Tokens, candidates: seq<Digest>)
    requires FirstFree(tokens, candidates).Some?
    ensures !DigestTaken(tokens, FirstFree(tokens, candidates).value)
  {
    if DigestTaken(tokens, candidates[0]) { FirstFreeIsFree(tokens, candidates[1..]); }
  }

  lemma {:induction false} FirstFreeMailIsFree(tokens: MailTokens, candidates: seq<Digest>)
    requires FirstFreeMail(tokens, candidates).Some?
    ensures !MailDigestTaken(tokens, FirstFreeMail(tokens, candidates).value)
  {
    if MailDigestTaken(tokens, candidates[0]) { FirstFreeMailIsFree(tokens, candidates[1..]); }
  }

  // --------------------------------------------------------------------- sessions

  lemma LoginKeeps(db: Db, user: Id, verified: Hash, minted: Minted)
    requires Inv(db)
    ensures Inv(Login(db, user, verified, minted).db)
  {
    if Login(db, user, verified, minted).outcome.LoggedIn? {
      var d := ChosenDigest(db, minted).value;
      FirstFreeIsFree(db.tokens, Attempts(minted.candidates));
      IssueFamilyKeeps(db, user, minted, d);
    }
  }

  lemma IssueFamilyKeeps(db: Db, user: Id, minted: Minted, d: Digest)
    requires Inv(db) && CurrentUser(db, user)
    requires minted.family !in db.families && minted.token !in db.tokens && !DigestTaken(db.tokens, d)
    ensures Inv(IssueFamily(db, user, minted, d))
  {
    hide UsersOk, FamiliesOk, TokensOk, ChainsOk, ChallengesOk, MailTokensOk, RegistrationsOk;
    var next := IssueFamily(db, user, minted, d);
    FamilyIssued(db, user, minted.family);
    FirstTokenKeepsTokens(db.tokens, db.families.Keys, db.now, minted.family, minted.token, d);
    assert next.families.Keys == db.families.Keys + {minted.family};
  }

  lemma RevokeOneKeeps(db: Db, f: Id)
    requires Inv(db) && f in db.families
    ensures Inv(db.(families := db.families[f := Revoke(db.families[f], db.now)]))
  {
    hide UsersOk, FamiliesOk, TokensOk, ChainsOk, ChallengesOk, MailTokensOk, RegistrationsOk;
    FamilyRevoked(db.families, db.users.Keys, Enabled(db.users), db.now, f);
    assert db.families[f := Revoke(db.families[f], db.now)].Keys == db.families.Keys;
  }

  lemma RefreshKeeps(db: Db, target: Target, d: Digest, r: Id, candidates: seq<Digest>)
    requires Inv(db)
    ensures Inv(Refresh(db, target, d, r, candidates).db)
  {
    hide UsersOk, FamiliesOk, TokensOk, ChainsOk, ChallengesOk, MailTokensOk, RegistrationsOk;
    var tx := Refresh(db, target, d, r, candidates);
    if tx.outcome.ReuseRevoked? {
      RevokeOneKeeps(db, target.family);
    } else if tx.outcome.Rotated? {
      FirstFreeIsFree(db.tokens, Attempts(candidates));
      RotationKeepsTokens(db.tokens, db.families.Keys, db.now, target.family, target.token, r,
                          FirstFree(db.tokens, Attempts(candidates)).value);
    }
  }

  lemma LogoutKeeps(db: Db, target: Target, d: Digest)
    requires Inv(db)
    ensures Inv(Logout(db, target, d).db)
  {
    if Logout(db, target, d).outcome.SignedOut? { RevokeOneKeeps(db, target.family); }
  }

  // -------------------------------------------------------------------- passwords

  function WithHash(db: Db, user: Id, hash: Hash): Db
    requires user in db.users
  {
    db.(users := db.users[user := db.users[user].(hash := hash)], hashes := db.hashes + {hash})
  }

  lemma HashChangeKeeps(db: Db, user: Id, hash: Hash)
    requires Inv(db) && user in db.users
    ensures Inv(WithHash(db, user, hash))
  {
    var next := WithHash(db, user, hash);
    assert next.users.Keys == db.users.Keys && Enabled(next.users) == Enabled(db.users);
    assert UsersOk(next.users, next.hashes);
  }

  lemma ChallengesRevokedKeeps(db: Db, user: Id)
    requires Inv(db)
    ensures Inv(db.(challenges := RevokeAllChallenges(db, user)))
  {
    ChallengesRevoked(db, user, Enabled(db.users));
  }

  lemma ChangePasswordKeeps(db: Db, target: Target, d: Digest, verified: Hash, hash: Hash, minted: Minted)
    requires Inv(db)
    ensures Inv(ChangePassword(db, target, d, verified, hash, minted).db)
  {
    hide UsersOk, FamiliesOk, TokensOk, ChainsOk, ChallengesOk, MailTokensOk, RegistrationsOk;
    var tx := ChangePassword(db, target, d, verified, hash, minted);
    if tx.outcome.PasswordChanged? {
      var digest := ChosenDigest(db, minted).value;
      FirstFreeIsFree(db.tokens, Attempts(minted.candidates));
      HashChangeKeeps(db, target.user, hash);
      var hashed := WithHash(db, target.user, hash);
      IssueFamilyKeeps(hashed, target.user, minted, digest);
      var issued := IssueFamily(hashed, target.user, minted, digest);
      ChallengesRevokedKeeps(issued, target.user);
      assert RevokeAll(hashed, target.user) == RevokeAll(db, target.user);
      assert RevokeAllChallenges(issued, target.user) == RevokeAllChallenges(db, target.user);
      assert tx.db == issued.(challenges := RevokeAllChallenges(issued, target.user));
    }
  }

  lemma MailTokenSpent(tokens: MailTokens, owners: set<Id>, done: set<Id>, c: Id, t: Id, now: Time)
    requires MailTokensOk(tokens, owners, done, now) && t in tokens && tokens[t].challenge == c && c !in done
    ensures MailTokensOk(tokens[t := tokens[t].(usedAt := Some(now))], owners, done + {c}, now)
  {
  }

  lemma ChallengeCompleted(challenges: Challenges, known: set<Id>, enabled: set<Id>, now: Time, c: Id)
    requires ChallengesOk(challenges, known, enabled, now) && c in challenges
    requires challenges[c].status == Active && now < challenges[c].expiresAt
    ensures var next := challenges[c := challenges[c].(status := Completed, completedAt := Some(now))];
            ChallengesOk(next, known, enabled, now) && Done(next) == Done(challenges) + {c}
  {
    assert ChallengeOk(challenges[c], known, enabled, now);
  }

  lemma CompleteResetKeeps(db: Db, target: MailTarget, d: Digest, verified: Hash, hash: Hash)
    requires Inv(db)
    ensures Inv(CompleteReset(db, target, d, verified, hash).db)
  {
    hide UsersOk, FamiliesOk, TokensOk, ChainsOk, ChallengesOk, MailTokensOk, RegistrationsOk;
    var tx := CompleteReset(db, target, d, verified, hash);
    if tx.outcome.PasswordReset? {
      HashChangeKeeps(db, target.owner, hash);
      var hashed := WithHash(db, target.owner, hash);
      FamiliesRevoked(hashed, target.owner, Enabled(hashed.users));
      assert RevokeAll(hashed, target.owner) == RevokeAll(db, target.owner);
      assert tx.db.families.Keys == db.families.Keys;
      ChallengeCompleted(hashed.challenges, hashed.users.Keys, Enabled(hashed.users), db.now, target.challenge);
      MailTokenSpent(db.resetTokens, db.challenges.Keys, Done(db.challenges), target.challenge, target.token, db.now);
      assert tx.db.challenges.Keys == db.challenges.Keys;
    }
  }

  lemma MailTokenAdded(tokens: MailTokens, owners: set<Id>, done: set<Id>, c: Id, t: Id, d: Digest, now: Time)
    requires MailTokensOk(tokens, owners, done, now) && t !in tokens && !MailDigestTaken(tokens, d)
    ensures MailTokensOk(tokens[t := MailToken(c, d, now, None)], owners + {c}, done, now)
  {
  }

  lemma ChallengeOpened(db: Db, user: Id, c: Id)
    requires ChallengesOk(db.challenges, db.users.Keys, Enabled(db.users), db.now) && CurrentUser(db, user)
    requires OpenReset(db, user, c).Some?
    ensures var (next, owner) := OpenReset(db, user, c).value;
            ChallengesOk(next, db.users.Keys, Enabled(db.users), db.now)
            && Done(next) == Done(db.challenges) && next.Keys == db.challenges.Keys + {owner}
  {
    var (next, owner) := OpenReset(db, user, c).value;
    forall k | k in next ensures ChallengeOk(next[k], db.users.Keys, Enabled(db.users), db.now) {
      if k in db.challenges { assert ChallengeOk(db.challenges[k], db.users.Keys, Enabled(db.users), db.now); }
    }
    OpenedIsOnlyActive(db, user, c);
  }

  lemma OpenedIsOnlyActive(db: Db, user: Id, c: Id)
    requires OneActiveChallenge(db.challenges) && OpenReset(db, user, c).Some?
    ensures OneActiveChallenge(OpenReset(db, user, c).value.0)
  {
    var active := ActiveChallenges(db, user);
    forall k | k in db.challenges && db.challenges[k].status == Active && db.challenges[k].user == user
      ensures k in active
    {
    }
  }

  lemma RequestResetKeeps(db: Db, user: Id, email: Email, c: Id, t: Id, candidates: seq<Digest>)
    requires Inv(db)
    ensures Inv(RequestReset(db, user, email, c, t, candidates).db)
  {
    hide UsersOk, FamiliesOk, TokensOk, ChainsOk, ChallengesOk, MailTokensOk, RegistrationsOk, OpenReset, FirstFreeMail;
    var tx := RequestReset(db, user, email, c, t, candidates);
    if tx.outcome.ResetIssued? {
      FirstFreeMailIsFree(db.resetTokens, Attempts(candidates));
      var d := FirstFreeMail(db.resetTokens, Attempts(candidates)).value;
      ChallengeOpened(db, user, c);
      MailTokenAdded(db.resetTokens, db.challenges.Keys, Done(db.challenges),
                     OpenReset(db, user, c).value.1, t, d, db.now);
    }
  }

  lemma StatusKeepsUsers(users: Users, hashes: set<Hash>, user: Id, active: bool)
    requires UsersOk(users, hashes) && user in users
    ensures UsersOk(users[user := users[user].(active := active)], hashes)
  {
  }

  lemma ChangeStatusKeeps(db: Db, user: Id, active: bool)
    requires Inv(db)
    ensures Inv(ChangeStatus(db, user, active).db)
  {
    hide UsersOk, FamiliesOk, TokensOk, ChainsOk, ChallengesOk, MailTokensOk, RegistrationsOk;
    var tx := ChangeStatus(db, user, active);
    if tx.outcome.StatusChanged? {
      assert tx.db.users.Keys == db.users.Keys;
      StatusKeepsUsers(db.users, db.hashes, user, active);
      var enabled := Enabled(tx.db.users);
      if active {
        assert enabled == Enabled(db.users) + {user};
        FamiliesWeaken(db.families, db.users.Keys, Enabled(db.users), db.now, db.users.Keys, enabled, db.now);
        ChallengesWeaken(db.challenges, db.users.Keys, Enabled(db.users), db.now, db.users.Keys, enabled, db.now);
      } else {
        assert enabled == Enabled(db.users) - {user};
        FamiliesRevoked(db, user, enabled);
        ChallengesRevoked(db, user, enabled);
        assert tx.db.families.Keys == db.families.Keys;
      }
    }
  }

  // ---------------------------------------------------------------- registrations

  lemma RegistrationOpened(db: Db, email: Email, c: Id)
    requires RegistrationsOk(db.registrations, db.now) && OpenRegistration(db, email, c).Some?
    ensures var (next, owner) := OpenRegistration(db, email, c).value;
            RegistrationsOk(next, db.now)
            && DoneRegistrations(next) == DoneRegistrations(db.registrations)
            && next.Keys == db.registrations.Keys + {owner}
  {
    var (next, owner) := OpenRegistration(db, email, c).value;
    forall k | k in next ensures RegistrationOk(next[k], db.now) {
      if k in db.registrations { assert RegistrationOk(db.registrations[k], db.now); }
    }
    OpenedRegistrationIsOnlyActive(db, email, c);
  }

  lemma OpenedRegistrationIsOnlyActive(db: Db, email: Email, c: Id)
    requires OneActiveRegistration(db.registrations) && OpenRegistration(db, email, c).Some?
    ensures OneActiveRegistration(OpenRegistration(db, email, c).value.0)
  {
    var active := ActiveRegistrations(db, email);
    forall k | k in db.registrations && db.registrations[k].status == Active && db.registrations[k].email == email
      ensures k in active
    {
    }
  }

  lemma RequestRegistrationKeeps(db: Db, email: Email, allowed: bool, c: Id, t: Id, candidates: seq<Digest>)
    requires Inv(db)
    ensures Inv(RequestRegistration(db, email, allowed, c, t, candidates).db)
  {
    hide UsersOk, FamiliesOk, TokensOk, ChainsOk, ChallengesOk, MailTokensOk, RegistrationsOk, OpenRegistration,
      FirstFreeMail;
    var tx := RequestRegistration(db, email, allowed, c, t, candidates);
    if tx.outcome.RegistrationIssued? {
      FirstFreeMailIsFree(db.registrationTokens, Attempts(candidates));
      var d := FirstFreeMail(db.registrationTokens, Attempts(candidates)).value;
      RegistrationOpened(db, email, c);
      MailTokenAdded(db.registrationTokens, db.registrations.Keys, DoneRegistrations(db.registrations),
                     OpenRegistration(db, email, c).value.1, t, d, db.now);
    }
  }

  lemma UserAddedKeeps(db: Db, user: Id, email: Email, hash: Hash)
    requires Inv(db) && user !in db.users && !EmailTaken(db, email)
    ensures Inv(db.(users := db.users[user := User(email, hash, true)], hashes := db.hashes + {hash}))
  {
    var next := db.(users := db.users[user := User(email, hash, true)], hashes := db.hashes + {hash});
    assert UsersOk(next.users, next.hashes);
    assert Enabled(next.users) == Enabled(db.users) + {user};
    FamiliesWeaken(db.families, db.users.Keys, Enabled(db.users), db.now, next.users.Keys, Enabled(next.users), db.now);
    ChallengesWeaken(db.challenges, db.users.Keys, Enabled(db.users), db.now,
                     next.users.Keys, Enabled(next.users), db.now);
  }

  lemma RegistrationCompleted(registrations: Registrations, now: Time, c: Id)
    requires RegistrationsOk(registrations, now) && c in registrations
    requires registrations[c].status == Active && now < registrations[c].expiresAt
    ensures var next := registrations[c := registrations[c].(status := Completed, completedAt := Some(now))];
            RegistrationsOk(next, now) && DoneRegistrations(next) == DoneRegistrations(registrations) + {c}
  {
    assert RegistrationOk(registrations[c], now);
  }

  /** A user without families: revoking theirs first changes nothing. */
  lemma NothingToRevoke(db: Db, user: Id)
    requires forall f :: f in db.families ==> db.families[f].user != user
    ensures RevokeAll(db, user) == db.families
  {
  }

  lemma CompleteRegistrationKeeps(
    db: Db, target: MailTarget, d: Digest, allowed: bool, user: Id, hash: Hash, minted: Minted)
    requires Inv(db)
    ensures Inv(CompleteRegistration(db, target, d, allowed, user, hash, minted).db)
  {
    hide UsersOk, FamiliesOk, TokensOk, ChainsOk, ChallengesOk, MailTokensOk, RegistrationsOk, FirstFree,
      EmailTaken;
    var tx := CompleteRegistration(db, target, d, allowed, user, hash, minted);
    if tx.outcome.Registered? {
      FirstFreeIsFree(db.tokens, Attempts(minted.candidates));
      var digest := ChosenDigest(db, minted).value;
      UserAddedKeeps(db, user, target.owner, hash);
      var added := db.(users := tx.db.users, hashes := tx.db.hashes);
      FamiliesKnown(db);
      NothingToRevoke(added, user);
      IssueFamilyKeeps(added, user, minted, digest);
      var issued := IssueFamily(added, user, minted, digest);
      RegistrationCompleted(db.registrations, db.now, target.challenge);
      MailTokenSpent(db.registrationTokens, db.registrations.Keys, DoneRegistrations(db.registrations),
                     target.challenge, target.token, db.now);
      assert tx.db.registrations.Keys == db.registrations.Keys;
      assert tx.db == issued.(registrations := tx.db.registrations, registrationTokens := tx.db.registrationTokens);
    }
  }

  lemma FamiliesKnown(db: Db)
    requires FamiliesOk(db.families, db.users.Keys, Enabled(db.users), db.now)
    ensures forall f :: f in db.families ==> db.families[f].user in db.users
  {
    forall f | f in db.families ensures db.families[f].user in db.users {
      assert FamilyOk(db.families[f], db.users.Keys, Enabled(db.users), db.now);
    }
  }

  lemma AddUserKeeps(db: Db, user: Id, email: Email, hash: Hash)
    requires Inv(db)
    ensures Inv(AddUser(db, user, email, hash).db)
  {
    if AddUser(db, user, email, hash).outcome.UserAdded? { UserAddedKeeps(db, user, email, hash); }
  }

  lemma TimePasses(db: Db, elapsed: nat)
    requires Inv(db)
    ensures Inv(db.(now := db.now + elapsed))
  {
    hide UsersOk, FamiliesOk, TokensOk, ChainsOk, ChallengesOk, MailTokensOk, RegistrationsOk;
    var later := db.now + elapsed;
    FamiliesWeaken(db.families, db.users.Keys, Enabled(db.users), db.now, db.users.Keys, Enabled(db.users), later);
    ChallengesWeaken(db.challenges, db.users.Keys, Enabled(db.users), db.now, db.users.Keys, Enabled(db.users), later);
    RegistrationsWeaken(db.registrations, db.now, later);
    TokensWeaken(db.tokens, db.families.Keys, db.now, later);
    MailTokensWeaken(db.resetTokens, db.challenges.Keys, Done(db.challenges), db.now, later);
    MailTokensWeaken(db.registrationTokens, db.registrations.Keys, DoneRegistrations(db.registrations), db.now, later);
  }

  lemma RegistrationsWeaken(registrations: Registrations, now: Time, later: Time)
    requires RegistrationsOk(registrations, now) && now <= later
    ensures RegistrationsOk(registrations, later)
  {
    forall c | c in registrations ensures RegistrationOk(registrations[c], later) {
      assert RegistrationOk(registrations[c], now);
    }
  }

  lemma MailTokensWeaken(tokens: MailTokens, owners: set<Id>, done: set<Id>, now: Time, later: Time)
    requires MailTokensOk(tokens, owners, done, now) && now <= later
    ensures MailTokensOk(tokens, owners, done, later)
  {
  }

  lemma TokensWeaken(tokens: Tokens, owners: set<Id>, now: Time, later: Time)
    requires TokensOk(tokens, owners, now) && now <= later
    ensures TokensOk(tokens, owners, later)
  {
  }
}
