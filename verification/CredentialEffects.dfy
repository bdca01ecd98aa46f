/**
 What each outcome means for the tables, written out row by row: what was changed, what was
 added, and that nothing else was touched.
 */
module CredentialEffects {
  import opened Wrappers
  import opened Ordering
  import opened Credentials
  import opened CredentialInvariants
  import opened CredentialProtocol
  import opened CredentialHistory
  import opened CredentialIsolation
  import opened CredentialProgress

  /** Ten seconds, seven days, half an hour, one day, in microseconds; four attempts. */
  lemma Durations()
    ensures GRACE == 10_000_000 && FAMILY_LIFE == 604_800_000_000 && RESET_LIFE == 1_800_000_000
    ensures REGISTRATION_LIFE == 86_400_000_000 && ATTEMPTS == 4
  {
  }

  // ------------------------------------------------------------------- pieces

  function ClosedFamily(db: Db, user: Id, f: Id): Family
    requires f in db.families
  {
    var x := db.families[f];
    if x.user == user && x.active then Family(user, false, x.createdAt, x.expiresAt, Some(db.now)) else x
  }

  function ClosedChallenge(db: Db, user: Id, c: Id): Challenge
    requires c in db.challenges
  {
    var x := db.challenges[c];
    if x.user == user && x.status == Active then x.(status := Revoked, revokedAt := Some(db.now)) else x
  }

  /** Every ACTIVE family of the user is revoked now; every other family is as it was. */
  predicate FamiliesClosed(db: Db, user: Id, b: Families) {
    && b.Keys == db.families.Keys
    && forall f :: f in db.families ==> b[f] == ClosedFamily(db, user, f)
  }

  /** Every ACTIVE reset challenge of the user is revoked now; every other one is as it was. */
  predicate ChallengesClosed(db: Db, user: Id, b: Challenges) {
    && b.Keys == db.challenges.Keys
    && forall c :: c in db.challenges ==> b[c] == ClosedChallenge(db, user, c)
  }

  lemma RevokingCloses(db: Db, user: Id)
    ensures FamiliesClosed(db, user, RevokeAll(db, user))
    ensures ChallengesClosed(db, user, RevokeAllChallenges(db, user))
  {
  }

  /** The digest is one of the first four generated and was free. */
  predicate FreshDigest(tokens: Tokens, candidates: seq<Digest>, d: Digest) {
    && (exists i :: 0 <= i < |candidates| && i < 4 && candidates[i] == d)
    && !DigestTaken(tokens, d)
  }

  predicate FreshMailDigest(tokens: MailTokens, candidates: seq<Digest>, d: Digest) {
    && (exists i :: 0 <= i < |candidates| && i < 4 && candidates[i] == d)
    && !MailDigestTaken(tokens, d)
  }

  lemma {:induction false} FirstFreeIsListed(tokens: Tokens, candidates: seq<Digest>)
    requires FirstFree(tokens, candidates).Some?
    ensures exists i :: 0 <= i < |candidates| && candidates[i] == FirstFree(tokens, candidates).value
  {
    if DigestTaken(tokens, candidates[0]) {
      FirstFreeIsListed(tokens, candidates[1..]);
      var i :| 0 <= i < |candidates[1..]| && candidates[1..][i] == FirstFree(tokens, candidates).value;
      assert candidates[i + 1] == FirstFree(tokens, candidates).value;
    }
  }

  lemma ChosenIsFresh(tokens: Tokens, candidates: seq<Digest>)
    requires FirstFree(tokens, Attempts(candidates)).Some?
    ensures FreshDigest(tokens, candidates, FirstFree(tokens, Attempts(candidates)).value)
  {
    FirstFreeIsListed(tokens, Attempts(candidates));
    FirstFreeIsFree(tokens, Attempts(candidates));
    var d := FirstFree(tokens, Attempts(candidates)).value;
    var i :| 0 <= i < |Attempts(candidates)| && Attempts(candidates)[i] == d;
    assert i < 4 && candidates[i] == d;
    hide FirstFree, DigestTaken;
  }

  lemma {:induction false} FirstFreeMailIsListed(tokens: MailTokens, candidates: seq<Digest>)
    requires FirstFreeMail(tokens, candidates).Some?
    ensures exists i :: 0 <= i < |candidates| && candidates[i] == FirstFreeMail(tokens, candidates).value
  {
    if MailDigestTaken(tokens, candidates[0]) {
      FirstFreeMailIsListed(tokens, candidates[1..]);
      var i :| 0 <= i < |candidates[1..]| && candidates[1..][i] == FirstFreeMail(tokens, candidates).value;
      assert candidates[i + 1] == FirstFreeMail(tokens, candidates).value;
    }
  }

  lemma ChosenMailIsFresh(tokens: MailTokens, candidates: seq<Digest>)
    requires FirstFreeMail(tokens, Attempts(candidates)).Some?
    ensures FreshMailDigest(tokens, candidates, FirstFreeMail(tokens, Attempts(candidates)).value)
  {
    FirstFreeMailIsListed(tokens, Attempts(candidates));
    FirstFreeMailIsFree(tokens, Attempts(candidates));
    var d := FirstFreeMail(tokens, Attempts(candidates)).value;
    var i :| 0 <= i < |Attempts(candidates)| && Attempts(candidates)[i] == d;
    assert i < 4 && candidates[i] == d;
    hide FirstFreeMail, MailDigestTaken;
  }

  /** A new family of the user with one unused token, both issued now; the user's other families closed. */
  predicate FamilyOpened(a: Db, user: Id, m: Minted, families: Families, tokens: Tokens) {
    && m.family !in a.families && m.token !in a.tokens
    && m.family in families && families[m.family] == Family(user, true, a.now, a.now + 604_800_000_000, None)
    && FamiliesClosed(a, user, families - {m.family})
    && m.token in tokens && tokens == a.tokens[m.token := tokens[m.token]]
    && tokens[m.token] == Token(m.family, tokens[m.token].digest, a.now, None, None)
    && FreshDigest(a.tokens, m.candidates, tokens[m.token].digest)
  }

  lemma IssuingOpens(db: Db, user: Id, m: Minted)
    requires ChosenDigest(db, m).Some?
    ensures var next := IssueFamily(db, user, m, ChosenDigest(db, m).value);
      FamilyOpened(db, user, m, next.families, next.tokens)
  {
    RevokingCloses(db, user);
    ChosenIsFresh(db.tokens, m.candidates);
    var next := IssueFamily(db, user, m, ChosenDigest(db, m).value);
    assert next.families - {m.family} == RevokeAll(db, user);
    hide FirstFree, RevokeAll, FreshDigest, FamiliesClosed;
  }

  // ------------------------------------------------------------------- sessions

  lemma LoginStores(db: Db, user: Id, verified: Hash, m: Minted)
    requires Login(db, user, verified, m).outcome.LoggedIn?
    ensures var tx := Login(db, user, verified, m);
      && tx.outcome == LoggedIn(user, m.family, m.token, verified) && HashIs(db, user, verified)
      && tx.db == db.(families := tx.db.families, tokens := tx.db.tokens)
      && FamilyOpened(db, user, m, tx.db.families, tx.db.tokens)
  {
    IssuingOpens(db, user, m);
    hide FirstFree, FamilyOpened, RevokeAll;
  }

  /** A rotation uses the token and appends its replacement to the same family; nothing else changes. */
  lemma RotationStores(db: Db, target: Target, d: Digest, r: Id, candidates: seq<Digest>)
    requires Refresh(db, target, d, r, candidates).outcome.Rotated?
    ensures var tx := Refresh(db, target, d, r, candidates); var t := target.token;
      && tx.outcome == Rotated(target.family, t, r)
      && CurrentUser(db, target.user) && Live(db, target, d) && r !in db.tokens
      && r in tx.db.tokens && FreshDigest(db.tokens, candidates, tx.db.tokens[r].digest)
      && tx.db == db.(tokens := db.tokens
           [r := Token(target.family, tx.db.tokens[r].digest, db.now, None, None)]
           [t := Token(target.family, d, db.tokens[t].issuedAt, Some(db.now), Some(r))])
  {
    ChosenIsFresh(db.tokens, candidates);
    hide FirstFree, FreshDigest;
    var tx := Refresh(db, target, d, r, candidates);
    assert tx.db.tokens[r] == NewToken(db, target.family, tx.db.tokens[r].digest);
  }

  /** Signing out revokes the one family, now. */
  lemma SignOutStores(db: Db, target: Target, d: Digest)
    requires Logout(db, target, d).outcome.SignedOut?
    ensures var tx := Logout(db, target, d); var f := target.family;
      && tx.outcome == SignedOut(f, target.token) && Live(db, target, d)
      && tx.db == db.(families := db.families[f :=
           Family(target.user, false, db.families[f].createdAt, db.families[f].expiresAt, Some(db.now))])
  {
  }

  // ------------------------------------------------------------------- passwords

  lemma ChangeStores(db: Db, target: Target, d: Digest, verified: Hash, hash: Hash, m: Minted)
    requires ChangePassword(db, target, d, verified, hash, m).outcome.PasswordChanged?
    ensures var tx := ChangePassword(db, target, d, verified, hash, m); var u := target.user;
      && tx.outcome == PasswordChanged(u, target.family, target.token, verified, hash)
      && HashIs(db, u, verified) && Live(db, target, d)
      && tx.db == db.(users := db.users[u := User(db.users[u].email, hash, true)], hashes := db.hashes + {hash},
                      families := tx.db.families, tokens := tx.db.tokens, challenges := tx.db.challenges)
      && FamilyOpened(db, u, m, tx.db.families, tx.db.tokens) && ChallengesClosed(db, u, tx.db.challenges)
  {
    RevokingCloses(db, target.user);
    hide FirstFree, FamilyOpened, FamiliesClosed, ChallengesClosed, RevokeAll, RevokeAllChallenges;
    if ChosenDigest(db, m).Some? { IssuingOpens(db, target.user, m); }
  }

  /** A completed reset stores the hash, closes the sessions, completes the challenge and uses the token. */
  lemma ResetStores(db: Db, mail: MailTarget, d: Digest, verified: Hash, hash: Hash)
    requires CompleteReset(db, mail, d, verified, hash).outcome.PasswordReset?
    ensures var tx := CompleteReset(db, mail, d, verified, hash);
      var u, c, t := mail.owner, mail.challenge, mail.token;
      && tx.outcome == PasswordReset(u, c, t, verified, hash) && HashIs(db, u, verified) && ResetUsable(db, mail, d)
      && tx.db == db.(users := db.users[u := User(db.users[u].email, hash, true)], hashes := db.hashes + {hash},
                      families := tx.db.families,
                      challenges := db.challenges[c :=
                        db.challenges[c].(status := Completed, completedAt := Some(db.now))],
                      resetTokens := db.resetTokens[t := db.resetTokens[t].(usedAt := Some(db.now))])
      && FamiliesClosed(db, u, tx.db.families)
  {
    RevokingCloses(db, mail.owner);
    hide FamiliesClosed, RevokeAll;
  }

  predicate EqualBut(a: map<Id, Challenge>, b: map<Id, Challenge>, changed: set<Id>) {
    && (forall k :: k in a && k !in changed ==> k in b && b[k] == a[k])
    && (forall k :: k in b && k !in changed ==> k in a)
  }

  /**
   Asking for a reset as a current user issues one new token. It joins the user's unexpired
   ACTIVE challenge, whose lifetime stays as it was; otherwise a new challenge of half an hour is
   opened and an expired ACTIVE one is closed. Nothing else changes.
   */
  lemma ResetIsIssued(db: Db, user: Id, email: Email, c: Id, t: Id, candidates: seq<Digest>)
    requires Inv(db) && CurrentUser(db, user) && db.users[user].email == email
    requires c !in db.challenges && t !in db.resetTokens
    requires FirstFreeMail(db.resetTokens, Attempts(candidates)).Some?
    ensures var tx := RequestReset(db, user, email, c, t, candidates);
      && tx.outcome.ResetIssued? && tx.outcome.token == t
      && t in tx.db.resetTokens && FreshMailDigest(db.resetTokens, candidates, tx.db.resetTokens[t].digest)
      && tx.db == db.(challenges := tx.db.challenges, resetTokens := db.resetTokens
                        [t := MailToken(tx.outcome.challenge, tx.db.resetTokens[t].digest, db.now, None)])
      && ChallengeJoined(db, user, c, tx.outcome.challenge, tx.db.challenges)
  {
    ChosenMailIsFresh(db.resetTokens, candidates);
    JoiningOpens(db, user, c);
    hide Inv, FirstFreeMail, OpenReset, ChallengeJoined, FreshMailDigest;
  }

  predicate ChallengeJoined(db: Db, user: Id, fresh_: Id, joined: Id, b: Challenges) {
    && joined in b && b[joined].user == user && b[joined].status == Active && db.now < b[joined].expiresAt
    && (forall e :: e in db.challenges && db.challenges[e].user == user && db.challenges[e].status == Active ==>
          if db.now < db.challenges[e].expiresAt then joined == e && b == db.challenges
          else joined == fresh_ && b == db.challenges[e := db.challenges[e].(status := Expired)][fresh_ := b[fresh_]])
    && (joined == fresh_ ==> b[fresh_] == Challenge(user, Active, db.now, db.now + 1_800_000_000, None, None))
    && ((forall e :: e in db.challenges && db.challenges[e].user == user ==> db.challenges[e].status != Active) ==>
          joined == fresh_ && b == db.challenges[fresh_ := b[fresh_]])
  }

  lemma JoiningOpens(db: Db, user: Id, c: Id)
    requires Inv(db) && c !in db.challenges
    ensures var r := OpenReset(db, user, c); r.Some? && ChallengeJoined(db, user, c, r.value.1, r.value.0)
  {
    hide UsersOk, FamiliesOk, TokensOk, ChainsOk, MailTokensOk, RegistrationsOk;
    var active := ActiveChallenges(db, user);
    if active != {} {
      assert Least(active) in active;
      forall e | e in active ensures e == Least(active) {
      }
    }
    forall e | e in db.challenges && db.challenges[e].user == user && db.challenges[e].status == Active
      ensures e in active
    {
    }
  }

  /** For anybody else the request is accepted without effect. */
  lemma UnknownResetIsIgnored(db: Db, user: Id, email: Email, c: Id, t: Id, candidates: seq<Digest>)
    ensures RequestReset(db, user, email, c, t, candidates) == Tx(db, Ignored)
      <==> !CurrentUser(db, user) || db.users[user].email != email
  {
    hide OpenReset, FirstFreeMail;
  }

  // ------------------------------------------------------------------- users

  /** Setting a status sets it; disabling also closes every session and reset of the user. Nothing else changes. */
  lemma StatusIsSet(db: Db, user: Id, active: bool)
    requires Inv(db) && user in db.users
    ensures var tx := ChangeStatus(db, user, active);
      && tx.outcome == (if db.users[user].active == active then Ignored else StatusChanged(user, active))
      && tx.db == db.(users := db.users[user := User(db.users[user].email, db.users[user].hash, active)],
                      families := tx.db.families, challenges := tx.db.challenges)
      && (active ==> tx.db.families == db.families && tx.db.challenges == db.challenges)
      && (!active ==> FamiliesClosed(db, user, tx.db.families) && ChallengesClosed(db, user, tx.db.challenges))
  {
    hide Inv, RevokeAll, RevokeAllChallenges, FamiliesClosed, ChallengesClosed;
    if db.users[user].active == active {
      SameStatus(db.users, user);
      if !active {
        DisabledHasNothing(db, user);
        NothingToClose(db, user);
      }
    } else {
      RevokingCloses(db, user);
      assert db.users[user].(active := active) == User(db.users[user].email, db.users[user].hash, active);
    }
  }

  lemma SameStatus(users: Users, u: Id)
    requires u in users
    ensures users[u := User(users[u].email, users[u].hash, users[u].active)] == users
  {
  }

  lemma NothingToClose(db: Db, user: Id)
    requires forall f :: f in db.families && db.families[f].user == user ==> !db.families[f].active
    requires forall c :: c in db.challenges && db.challenges[c].user == user ==> db.challenges[c].status != Active
    ensures FamiliesClosed(db, user, db.families) && ChallengesClosed(db, user, db.challenges)
  {
  }

  /** Closing leaves nothing ACTIVE. */
  lemma ClosedIsInactive(a: Db, user: Id, b: Db)
    requires FamiliesClosed(a, user, b.families) && ChallengesClosed(a, user, b.challenges)
    ensures ActiveFamilies(b, user) == {} && ActiveChallenges(b, user) == {}
  {
  }

  lemma DisabledHasNothing(db: Db, user: Id)
    requires Inv(db) && !CurrentUser(db, user)
    ensures forall f :: f in db.families && db.families[f].user == user ==> !db.families[f].active
    ensures forall c :: c in db.challenges && db.challenges[c].user == user ==> db.challenges[c].status != Active
  {
    hide TokensOk, ChainsOk, MailTokensOk, RegistrationsOk, UsersOk;
    forall f | f in db.families && db.families[f].user == user ensures !db.families[f].active {
      assert FamilyOk(db.families[f], db.users.Keys, Enabled(db.users), db.now);
    }
    forall c | c in db.challenges && db.challenges[c].user == user ensures db.challenges[c].status != Active {
      assert ChallengeOk(db.challenges[c], db.users.Keys, Enabled(db.users), db.now);
    }
  }

  // ------------------------------------------------------------------- while disabled

  /** The user is stored, DISABLED, and without ACTIVE families. */
  predicate Shut(db: Db, u: Id) {
    && u in db.users && !db.users[u].active
    && forall f :: f in db.families && db.families[f].user == u ==> !db.families[f].active
  }

  lemma ShutLogin(db: Db, u: Id, v: Id, hash: Hash, m: Minted)
    requires Shut(db, u)
    ensures var tx := Login(db, v, hash, m); !Concerns(tx.db, tx.outcome, u)
  {
    hide FirstFree, IssueFamily, DigestTaken;
  }

  lemma ShutRefresh(db: Db, u: Id, target: Target, d: Digest, r: Id, ds: seq<Digest>)
    requires Shut(db, u)
    ensures var tx := Refresh(db, target, d, r, ds); !Concerns(tx.db, tx.outcome, u)
  {
    hide FirstFree, DigestTaken, NewToken;
  }

  lemma ShutLogout(db: Db, u: Id, target: Target, d: Digest)
    requires Shut(db, u)
    ensures var tx := Logout(db, target, d); !Concerns(tx.db, tx.outcome, u)
  {
  }

  lemma ShutChange(db: Db, u: Id, target: Target, d: Digest, verified: Hash, hash: Hash, m: Minted)
    requires Shut(db, u)
    ensures var tx := ChangePassword(db, target, d, verified, hash, m); !Concerns(tx.db, tx.outcome, u)
  {
    hide FirstFree, IssueFamily, RevokeAllChallenges, Live;
  }

  lemma ShutReset(db: Db, u: Id, mail: MailTarget, d: Digest, verified: Hash, hash: Hash)
    requires Shut(db, u)
    ensures var tx := CompleteReset(db, mail, d, verified, hash); !Concerns(tx.db, tx.outcome, u)
  {
    hide RevokeAll, ResetUsable;
  }

  lemma ShutAsk(db: Db, u: Id, v: Id, email: Email, c: Id, t: Id, ds: seq<Digest>)
    requires Shut(db, u)
    ensures var tx := RequestReset(db, v, email, c, t, ds); !Concerns(tx.db, tx.outcome, u)
  {
    hide FirstFreeMail, OpenReset;
    if RequestReset(db, v, email, c, t, ds).outcome.ResetIssued? { OpeningIsolates(db, v, c, u); }
  }

  lemma ShutStatus(db: Db, u: Id, v: Id, active: bool)
    requires Shut(db, u) && !(v == u && active)
    ensures var tx := ChangeStatus(db, v, active); !Concerns(tx.db, tx.outcome, u)
  {
    hide RevokeAll, RevokeAllChallenges;
  }

  lemma ShutRegister(
    db: Db, u: Id, mail: MailTarget, d: Digest, allowed: bool, v: Id, hash: Hash, m: Minted)
    requires Shut(db, u)
    ensures var tx := CompleteRegistration(db, mail, d, allowed, v, hash, m); !Concerns(tx.db, tx.outcome, u)
  {
    hide FirstFree, EmailTaken, RegistrationUsable;
  }

  lemma ShutAdd(db: Db, u: Id, v: Id, email: Email, hash: Hash)
    requires Shut(db, u)
    ensures var tx := AddUser(db, v, email, hash); !Concerns(tx.db, tx.outcome, u)
  {
    hide EmailTaken;
  }

  lemma ShutSessions(s: Sys, step: Step, u: Id)
    requires Shut(s.db, u) && (step.CommitLogin? || step.CommitRefresh? || step.CommitLogout?)
    ensures !Concerns(Exec(s, step).sys.db, Exec(s, step).outcome, u)
  {
    hide Shut, Concerns, Login, Refresh, Logout;
    NothingConcerns(Exec(s, step).sys.db, Exec(s, step).outcome, u);
    if step.request in s.pending {
      match s.pending[step.request]
      case LoginPending(v, h) => if step.CommitLogin? { ShutLogin(s.db, u, v, h, step.minted); }
      case RefreshPending(t, d) =>
        if step.CommitRefresh? { ShutRefresh(s.db, u, t, d, step.replacement, step.candidates); }
      case LogoutPending(t, d) => if step.CommitLogout? { ShutLogout(s.db, u, t, d); }
      case _ =>
    }
  }

  lemma ShutCommits(s: Sys, step: Step, u: Id)
    requires Shut(s.db, u) && (step.CommitChange? || step.CommitReset? || step.CommitRegister?)
    ensures !Concerns(Exec(s, step).sys.db, Exec(s, step).outcome, u)
  {
    hide Shut, Concerns, ChangePassword, CompleteReset, CompleteRegistration;
    NothingConcerns(Exec(s, step).sys.db, Exec(s, step).outcome, u);
    if step.request in s.pending {
      match s.pending[step.request]
      case ChangePending(t, d, h) => if step.CommitChange? { ShutChange(s.db, u, t, d, h, step.hash, step.minted); }
      case ResetPending(m, d, h) => if step.CommitReset? { ShutReset(s.db, u, m, d, h, step.hash); }
      case RegisterPending(m, d) =>
        if step.CommitRegister? { ShutRegister(s.db, u, m, d, step.allowed, step.user, step.hash, step.minted); }
      case _ =>
    }
  }

  lemma ShutRequests(s: Sys, step: Step, u: Id)
    requires Shut(s.db, u) && step != SetStatus(u, true)
    requires step.AskReset? || step.AskRegistration? || step.SetStatus? || step.Bootstrap?
    ensures !Concerns(Exec(s, step).sys.db, Exec(s, step).outcome, u)
  {
    hide Shut, Concerns, RequestReset, RequestRegistration, ChangeStatus, AddUser;
    match step
    case AskReset(v, email, c, t, ds) => ShutAsk(s.db, u, v, email, c, t, ds);
    case AskRegistration(email, allowed, c, t, ds) => RegistrationConcernsNobody(s.db, email, allowed, c, t, ds, u);
    case SetStatus(v, active) => ShutStatus(s.db, u, v, active);
    case Bootstrap(v, email, hash) => ShutAdd(s.db, u, v, email, hash);
  }

  /** No step but enabling the user concerns a disabled user. */
  lemma DisabledIsLeftAlone(s: Sys, step: Step, u: Id)
    requires Inv(s.db) && u in s.db.users && !s.db.users[u].active && step != SetStatus(u, true)
    ensures !Concerns(Exec(s, step).sys.db, Exec(s, step).outcome, u)
  {
    DisabledHasNothing(s.db, u);
    assert Shut(s.db, u);
    hide Inv, Shut, Concerns;
    if step.CommitLogin? || step.CommitRefresh? || step.CommitLogout? {
      hide Exec;
      ShutSessions(s, step, u);
    } else if step.CommitChange? || step.CommitReset? || step.CommitRegister? {
      hide Exec;
      ShutCommits(s, step, u);
    } else if step.AskReset? || step.AskRegistration? || step.SetStatus? || step.Bootstrap? {
      hide Exec;
      ShutRequests(s, step, u);
    } else {
      NothingConcerns(Exec(s, step).sys.db, Exec(s, step).outcome, u);
      hide ReadLogin, ReadChange, ReadReset, FindRefresh, FindReset, FindRegistration;
    }
  }

  lemma NothingConcerns(db: Db, o: Outcome, u: Id)
    ensures o.Refused? || o.Noted? || o.Ignored? ==> !Concerns(db, o, u)
  {
  }

  lemma RegistrationConcernsNobody(db: Db, email: Email, allowed: bool, c: Id, t: Id, ds: seq<Digest>, u: Id)
    ensures var tx := RequestRegistration(db, email, allowed, c, t, ds); !Concerns(tx.db, tx.outcome, u)
  {
    hide OpenRegistration, FirstFreeMail, EmailTaken;
  }

  /**
   From the moment a user is disabled until they are enabled again, at every point of any run,
   they stay disabled, no outcome concerns them, and all their rows stay as they are.
   */
  lemma {:induction false} DisabledGetsNothing(run: seq<Step>, i: nat, j: nat, u: Id)
    requires i < j <= |run| && run[i] == SetStatus(u, false) && u in StateAt(run, i).users
    requires forall k :: i < k < j ==> run[k] != SetStatus(u, true)
    ensures u in StateAt(run, j).users && !StateAt(run, j).users[u].active
    ensures SameRows(StateAt(run, i + 1), StateAt(run, j), u)
    ensures j < |run| && run[j] != SetStatus(u, true) ==> !Concerns(StateAt(run, j + 1), OutcomeAt(run, j), u)
    decreases j
  {
    hide SameRows, Concerns, Exec, Inv;
    RunsKeepInvariant(run[..i]);
    LastStep(run, i + 1);
    DisablingDisables(After(run[..i]), u);
    if j == i + 1 {
      SameAsItself(StateAt(run, j), u);
    } else {
      DisabledGetsNothing(run, i, j - 1, u);
      LastStep(run, j);
      OthersAreUntouched(After(run[..j - 1]), run[j - 1], u);
      SameRowsTransitive(StateAt(run, i + 1), StateAt(run, j - 1), StateAt(run, j), u);
      SameUserStays(StateAt(run, j - 1), StateAt(run, j), u);
    }
    RunsKeepInvariant(run[..j]);
    if j < |run| && run[j] != SetStatus(u, true) {
      LastStep(run, j + 1);
      DisabledIsLeftAlone(After(run[..j]), run[j], u);
    }
  }

  lemma DisablingDisables(s: Sys, u: Id)
    requires Inv(s.db) && u in s.db.users
    ensures var next := Exec(s, SetStatus(u, false)).sys.db; u in next.users && !next.users[u].active
  {
    StatusIsSet(s.db, u, false);
    hide Inv, ChangeStatus, FamiliesClosed, ChallengesClosed;
  }

  lemma SameUserStays(a: Db, b: Db, u: Id)
    requires SameRows(a, b, u) && u in a.users && !a.users[u].active
    ensures u in b.users && !b.users[u].active
  {
    hide SameFamilies, SameChallenges, SameTokens, SameMail;
  }

  lemma UnknownUserIsRefused(db: Db, user: Id, active: bool)
    ensures ChangeStatus(db, user, active) == Tx(db, Refused(UserNotFound)) <==> user !in db.users
  {
  }

  // ------------------------------------------------------------------- registrations

  /** Asking to register a free email of an allowed domain issues a token, as for a reset. */
  lemma RegistrationIsIssued(db: Db, email: Email, c: Id, t: Id, candidates: seq<Digest>)
    requires Inv(db) && !EmailTaken(db, email) && c !in db.registrations && t !in db.registrationTokens
    requires FirstFreeMail(db.registrationTokens, Attempts(candidates)).Some?
    ensures var tx := RequestRegistration(db, email, true, c, t, candidates);
      && tx.outcome.RegistrationIssued? && tx.outcome.token == t
      && t in tx.db.registrationTokens
      && FreshMailDigest(db.registrationTokens, candidates, tx.db.registrationTokens[t].digest)
      && tx.db == db.(registrations := tx.db.registrations, registrationTokens := db.registrationTokens
                        [t := MailToken(tx.outcome.challenge, tx.db.registrationTokens[t].digest, db.now, None)])
      && RegistrationJoined(db, email, c, tx.outcome.challenge, tx.db.registrations)
  {
    ChosenMailIsFresh(db.registrationTokens, candidates);
    JoiningRegisters(db, email, c);
    hide Inv, FirstFreeMail, OpenRegistration, RegistrationJoined, FreshMailDigest, EmailTaken;
  }

  predicate RegistrationJoined(db: Db, email: Email, fresh_: Id, joined: Id, b: Registrations) {
    && joined in b && b[joined].email == email && b[joined].status == Active && db.now < b[joined].expiresAt
    && (forall e :: e in db.registrations && db.registrations[e].email == email
                    && db.registrations[e].status == Active ==>
          if db.now < db.registrations[e].expiresAt then joined == e && b == db.registrations
          else joined == fresh_
               && b == db.registrations[e := db.registrations[e].(status := Expired)][fresh_ := b[fresh_]])
    && (joined == fresh_ ==> b[fresh_] == Registration(email, Active, db.now, db.now + 86_400_000_000, None))
    && ((forall e :: e in db.registrations && db.registrations[e].email == email
                     ==> db.registrations[e].status != Active)
        ==> joined == fresh_ && b == db.registrations[fresh_ := b[fresh_]])
  }

  lemma JoiningRegisters(db: Db, email: Email, c: Id)
    requires Inv(db) && c !in db.registrations
    ensures var r := OpenRegistration(db, email, c); r.Some? && RegistrationJoined(db, email, c, r.value.1, r.value.0)
  {
    hide UsersOk, FamiliesOk, TokensOk, ChainsOk, MailTokensOk, ChallengesOk;
    var active := ActiveRegistrations(db, email);
    if active != {} {
      assert Least(active) in active;
      forall e | e in active ensures e == Least(active) {
      }
    }
    forall e | e in db.registrations && db.registrations[e].email == email && db.registrations[e].status == Active
      ensures e in active
    {
    }
  }

  /** A domain that is not allowed is refused, and an email that has a user is ignored; nothing changes. */
  lemma RegistrationIsNotIssued(db: Db, email: Email, allowed: bool, c: Id, t: Id, candidates: seq<Digest>)
    ensures var tx := RequestRegistration(db, email, allowed, c, t, candidates);
      && (tx == Tx(db, Refused(DomainNotAllowed)) <==> !allowed)
      && (tx == Tx(db, Ignored) <==> allowed && EmailTaken(db, email))
  {
    hide OpenRegistration, FirstFreeMail, EmailTaken;
  }

  /** A completed registration stores one user, one family with one token, and uses challenge and token. */
  lemma RegistrationStores(
    db: Db, mail: MailTarget, d: Digest, allowed: bool, user: Id, hash: Hash, m: Minted)
    requires Inv(db) && CompleteRegistration(db, mail, d, allowed, user, hash, m).outcome.Registered?
    ensures var tx := CompleteRegistration(db, mail, d, allowed, user, hash, m); var c, t := mail.challenge, mail.token;
      && tx.outcome == Registered(user, c, t) && allowed && RegistrationUsable(db, mail, d)
      && !EmailTaken(db, mail.owner) && user !in db.users
      && tx.db == db.(users := db.users[user := User(mail.owner, hash, true)], hashes := db.hashes + {hash},
                      families := tx.db.families, tokens := tx.db.tokens,
                      registrations := db.registrations[c :=
                        db.registrations[c].(status := Completed, completedAt := Some(db.now))],
                      registrationTokens := db.registrationTokens[t :=
                        db.registrationTokens[t].(usedAt := Some(db.now))])
      && FamilyOpened(db, user, m, tx.db.families, tx.db.tokens)
  {
    FamiliesKnown(db);
    hide Inv, FirstFree, EmailTaken, FamilyOpened, RegistrationUsable;
    if ChosenDigest(db, m).Some? {
      NothingToRevoke(db, user);
      IssuingOpens(db, user, m);
    }
  }

  lemma AddingStores(db: Db, user: Id, email: Email, hash: Hash)
    ensures var tx := AddUser(db, user, email, hash);
      if user in db.users || EmailTaken(db, email) then tx == Tx(db, Refused(Unavailable))
      else tx.outcome == UserAdded(user)
           && tx.db == db.(users := db.users[user := User(email, hash, true)], hashes := db.hashes + {hash})
  {
    hide EmailTaken;
  }

  // ------------------------------------------------------------------- refusals

  /** A request whose snapshot no longer holds is refused, and for the reason the source gives. */
  predicate RefusedFor(db: Db, p: Pending, step: Step, o: Outcome) {
    match p
    case LoginPending(_, _) => o == Refused(InvalidCredentials)
    case LogoutPending(_, _) => o == Ignored
    case ChangePending(_, _, _) => o == Refused(InvalidSession)
    case ResetPending(_, _, _) => o == Refused(InvalidResetToken)
    case RegisterPending(m, d) =>
      if step.CommitRegister? && RegistrationUsable(db, m, d) && !step.allowed then o == Refused(DomainNotAllowed)
      else o == Refused(InvalidRegistrationToken)
    case RefreshPending(t, d) =>
      if CurrentUser(db, t.user) && Locked(db, t, d) && LiveFamily(db, t.family) && db.tokens[t.token].usedAt.Some? then
        if InGrace(db, t.token) then o == Refused(RefreshConflict) else o == ReuseRevoked(t.family, t.token)
      else o == Refused(InvalidSession)
  }

  lemma UnreadyIsRefused(s: Sys, r: Id, step: Step)
    requires r in s.pending && Commits(step, r, s.pending[r]) && !Ready(s.db, s.pending[r])
    ensures RefusedFor(s.db, s.pending[r], step, Exec(s, step).outcome)
  {
    hide FirstFree, RevokeAll, RevokeAllChallenges, EmailTaken, IssueFamily;
    match s.pending[r]
    case RefreshPending(_, _) =>
    case LoginPending(_, _) =>
    case LogoutPending(_, _) =>
    case ChangePending(_, _, _) =>
    case ResetPending(_, _, _) =>
    case RegisterPending(_, _) =>
  }

  /** A domain that is not allowed registers nobody, however good the token. */
  lemma DisallowedDomainRegistersNobody(db: Db, m: MailTarget, d: Digest, user: Id, hash: Hash, minted: Minted)
    requires RegistrationUsable(db, m, d)
    ensures CompleteRegistration(db, m, d, false, user, hash, minted) == Tx(db, Refused(DomainNotAllowed))
  {
  }

  lemma SessionRefusals(db: Db, user: Id, verified: Hash, m: Minted, target: Target, d: Digest, r: Id, ds: seq<Digest>)
    ensures var tx := Login(db, user, verified, m); tx.outcome.Refused? ==> tx.db == db
    ensures var tx := Refresh(db, target, d, r, ds); tx.outcome.Refused? ==> tx.db == db
    ensures var tx := Logout(db, target, d); tx.outcome.Ignored? ==> tx.db == db
  {
    hide FirstFree, IssueFamily, Live, Locked;
  }

  lemma PasswordRefusals(
    db: Db, target: Target, mail: MailTarget, d: Digest, verified: Hash, hash: Hash, m: Minted, user: Id, allowed: bool)
    ensures var tx := ChangePassword(db, target, d, verified, hash, m); tx.outcome.Refused? ==> tx.db == db
    ensures var tx := CompleteReset(db, mail, d, verified, hash); tx.outcome.Refused? ==> tx.db == db
    ensures var tx := CompleteRegistration(db, mail, d, allowed, user, hash, m); tx.outcome.Refused? ==> tx.db == db
  {
    hide FirstFree, IssueFamily, Live, ResetUsable, RegistrationUsable, EmailTaken;
  }

  /** Requests in flight: a beginning adds at most its own, a commit removes at most its own, nothing else moves. */
  lemma OnlyOneRequestMoves(s: Sys, step: Step, r: Id)
    requires r in s.pending
    ensures var next := Exec(s, step).sys.pending;
      if Commits(step, r, s.pending[r]) then r !in next else r in next && next[r] == s.pending[r]
  {
    hide FindRefresh, FindReset, FindRegistration, ReadLogin, ReadChange, ReadReset, Login, Refresh, Logout,
      ChangePassword, CompleteReset, CompleteRegistration, RequestReset, RequestRegistration, ChangeStatus, AddUser;
  }

  /** The steps that commit at once are the transactions of their names. */
  lemma StepsAreTransactions(s: Sys, step: Step)
    ensures var n := Exec(s, step);
      match step
      case AskReset(u, e, c, t, ds) => n == AtOnce(s, RequestReset(s.db, u, e, c, t, ds))
      case AskRegistration(e, allowed, c, t, ds) => n == AtOnce(s, RequestRegistration(s.db, e, allowed, c, t, ds))
      case SetStatus(u, active) => n == AtOnce(s, ChangeStatus(s.db, u, active))
      case Bootstrap(u, e, h) => n == AtOnce(s, AddUser(s.db, u, e, h))
      case _ => true
  {
    hide RequestReset, RequestRegistration, ChangeStatus, AddUser;
  }

  /** A commit is its transaction on what the request took along and what the step brings; it ends the request. */
  lemma CommitsAreTransactions(s: Sys, step: Step, r: Id)
    requires r in s.pending && Commits(step, r, s.pending[r])
    ensures var n := Exec(s, step);
      match s.pending[r]
      case LoginPending(u, h) => n == Ended(s, r, Login(s.db, u, h, step.minted))
      case RefreshPending(t, d) => n == Ended(s, r, Refresh(s.db, t, d, step.replacement, step.candidates))
      case LogoutPending(t, d) => n == Ended(s, r, Logout(s.db, t, d))
      case ChangePending(t, d, h) => n == Ended(s, r, ChangePassword(s.db, t, d, h, step.hash, step.minted))
      case ResetPending(m, d, h) => n == Ended(s, r, CompleteReset(s.db, m, d, h, step.hash))
      case RegisterPending(m, d) =>
        n == Ended(s, r, CompleteRegistration(s.db, m, d, step.allowed, step.user, step.hash, step.minted))
  {
    hide Login, Refresh, Logout, ChangePassword, CompleteReset, CompleteRegistration;
  }

  function Ended(s: Sys, r: Id, tx: Tx): Next { Next(Sys(tx.db, s.pending - {r}), tx.outcome) }

  function AtOnce(s: Sys, tx: Tx): Next { Next(Sys(tx.db, s.pending), tx.outcome) }

  /** Waiting only moves the clock. */
  lemma WaitingOnlyWaits(s: Sys, elapsed: nat)
    ensures Exec(s, Wait(elapsed)) == Next(s.(db := s.db.(now := s.db.now + elapsed)), Noted)
  {
  }
}
