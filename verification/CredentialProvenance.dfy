/**
 Where a grant comes from: the request it answers was made earlier in the run, with the
 right password or token, and every such request is noted.
 */
module CredentialProvenance {
  import opened Wrappers
  import opened Ordering
  import opened Credentials
  import opened CredentialInvariants
  import opened CredentialProtocol
  import opened CredentialHistory
  import opened CredentialProgress

  /** The stored refresh token with this digest, its family and that family's user. */
  predicate Names(db: Db, t: Target, d: Digest) {
    && t.token in db.tokens && db.tokens[t.token].digest == d && db.tokens[t.token].family == t.family
    && t.family in db.families && db.families[t.family].user == t.user
  }

  predicate NamesReset(db: Db, m: MailTarget, d: Digest) {
    && m.token in db.resetTokens && db.resetTokens[m.token].digest == d
    && db.resetTokens[m.token].challenge == m.challenge
    && m.challenge in db.challenges && db.challenges[m.challenge].user == m.owner
  }

  predicate NamesRegistration(db: Db, m: MailTarget, d: Digest) {
    && m.token in db.registrationTokens && db.registrationTokens[m.token].digest == d
    && db.registrationTokens[m.token].challenge == m.challenge
    && m.challenge in db.registrations && db.registrations[m.challenge].email == m.owner
  }

  /** The step is request `r`, rightly made, and `p` is what it takes along. */
  predicate Reads(db: Db, step: Step, r: Id, p: Pending) {
    match p
    case LoginPending(u, h) =>
      step.BeginLogin? && step.request == r && step.matches
      && HashIs(db, u, h) && db.users[u].email == step.email
    case RefreshPending(t, d) => step == BeginRefresh(r, d) && Names(db, t, d)
    case LogoutPending(t, d) => step == BeginLogout(r, d) && Names(db, t, d)
    case ChangePending(t, d, h) =>
      step == BeginChange(r, d, t.user, true) && Names(db, t, d) && HashIs(db, t.user, h) && Live(db, t, d)
    case ResetPending(m, d, h) => step == BeginReset(r, d) && NamesReset(db, m, d) && HashIs(db, m.owner, h)
    case RegisterPending(m, d) => step == BeginRegister(r, d) && NamesRegistration(db, m, d)
  }

  // ------------------------------------------------------------------- lookups

  /** A lookup by digest finds the one token that has it, or nothing when none has. */
  lemma RefreshIsFound(db: Db, d: Digest)
    requires TokensOk(db.tokens, db.families.Keys, db.now)
    ensures FindRefresh(db, d).None? <==> !DigestTaken(db.tokens, d)
    ensures forall t :: Names(db, t, d) <==> FindRefresh(db, d) == Some(t)
  {
    var found := set t | t in db.tokens && db.tokens[t].digest == d && db.tokens[t].family in db.families;
    if found != {} { assert Least(found) in found; }
    forall t | Names(db, t, d) ensures FindRefresh(db, d) == Some(t) {
      assert t.token in found;
    }
    if DigestTaken(db.tokens, d) {
      var t :| t in db.tokens && db.tokens[t].digest == d;
      assert t in found;
    }
  }

  lemma ResetIsFound(db: Db, d: Digest)
    requires MailTokensOk(db.resetTokens, db.challenges.Keys, Done(db.challenges), db.now)
    ensures FindReset(db, d).None? <==> !MailDigestTaken(db.resetTokens, d)
    ensures forall m :: NamesReset(db, m, d) <==> FindReset(db, d) == Some(m)
  {
    var found := set t | t in db.resetTokens && db.resetTokens[t].digest == d
                         && db.resetTokens[t].challenge in db.challenges;
    if found != {} { assert Least(found) in found; }
    forall m | NamesReset(db, m, d) ensures FindReset(db, d) == Some(m) {
      assert m.token in found;
    }
    if MailDigestTaken(db.resetTokens, d) {
      var t :| t in db.resetTokens && db.resetTokens[t].digest == d;
      assert t in found;
    }
  }

  lemma RegistrationIsFound(db: Db, d: Digest)
    requires MailTokensOk(db.registrationTokens, db.registrations.Keys, DoneRegistrations(db.registrations), db.now)
    ensures FindRegistration(db, d).None? <==> !MailDigestTaken(db.registrationTokens, d)
    ensures forall m :: NamesRegistration(db, m, d) <==> FindRegistration(db, d) == Some(m)
  {
    var found := set t | t in db.registrationTokens && db.registrationTokens[t].digest == d
                         && db.registrationTokens[t].challenge in db.registrations;
    if found != {} { assert Least(found) in found; }
    forall m | NamesRegistration(db, m, d) ensures FindRegistration(db, d) == Some(m) {
      assert m.token in found;
    }
    if MailDigestTaken(db.registrationTokens, d) {
      var t :| t in db.registrationTokens && db.registrationTokens[t].digest == d;
      assert t in found;
    }
  }

  lemma UserIsFound(db: Db, email: Email)
    requires UsersOk(db.users, db.hashes)
    ensures forall u :: u in db.users && db.users[u].email == email <==> UserByEmail(db, email) == Some(u)
  {
    var found := set u | u in db.users && db.users[u].email == email;
    if found != {} { assert Least(found) in found; }
    forall u | u in db.users && db.users[u].email == email ensures UserByEmail(db, email) == Some(u) {
      assert u in found;
    }
  }

  // ------------------------------------------------------------------- reading

  function RequestOf(step: Step): Option<Id> {
    if step.BeginLogin? || step.BeginRefresh? || step.BeginLogout? || step.BeginChange? || step.BeginReset?
       || step.BeginRegister? then Some(step.request)
    else None
  }

  lemma LoginReads(db: Db, email: Email, matches: bool)
    requires UsersOk(db.users, db.hashes)
    ensures forall p :: ReadLogin(db, email, matches) == Some(p) <==>
      p.LoginPending? && matches && HashIs(db, p.user, p.verified) && db.users[p.user].email == email
  {
    UserIsFound(db, email);
    hide UserByEmail, UsersOk;
  }

  lemma ChangeReads(db: Db, d: Digest, principal: Id, matches: bool)
    requires TokensOk(db.tokens, db.families.Keys, db.now)
    ensures forall p :: ReadChange(db, d, principal, matches) == Some(p) <==>
      p.ChangePending? && p.digest == d && p.target.user == principal && matches && Names(db, p.target, d)
      && HashIs(db, p.target.user, p.verified) && Live(db, p.target, d)
  {
    RefreshIsFound(db, d);
    hide FindRefresh, TokensOk, Names, Live;
  }

  lemma ResetReads(db: Db, d: Digest)
    requires MailTokensOk(db.resetTokens, db.challenges.Keys, Done(db.challenges), db.now)
    ensures forall p :: ReadReset(db, d) == Some(p) <==>
      p.ResetPending? && p.digest == d && NamesReset(db, p.mail, d) && HashIs(db, p.mail.owner, p.verified)
  {
    ResetIsFound(db, d);
    hide FindReset, MailTokensOk, NamesReset;
  }

  /**
   A new request is noted exactly when it is rightly made: the password fits, or the token
   exists (and, for a change, is live and the principal's own); and it is noted as what it is.
   */
  lemma ReadsAreNoted(s: Sys, step: Step, r: Id, p: Pending)
    requires Inv(s.db) && r !in s.pending
    ensures var next := Exec(s, step);
      r in next.sys.pending && next.sys.pending[r] == p <==> Reads(s.db, step, r, p)
  {
    hide FindRefresh, FindReset, FindRegistration, ReadLogin, ReadChange, ReadReset, Names, NamesReset,
      NamesRegistration, HashIs, Live, UsersOk, TokensOk, MailTokensOk, FamiliesOk, ChainsOk, ChallengesOk,
      RegistrationsOk;
    var db := s.db;
    match step
    case BeginLogin(_, email, matches) => LoginReads(db, email, matches);
    case BeginRefresh(_, d) => RefreshIsFound(db, d);
    case BeginLogout(_, d) => RefreshIsFound(db, d);
    case BeginChange(_, d, principal, matches) => ChangeReads(db, d, principal, matches);
    case BeginReset(_, d) => ResetReads(db, d);
    case BeginRegister(_, d) => RegistrationIsFound(db, d);
    case _ => OtherStepsReadNothing(s, step, r, p);
  }

  lemma OtherStepsReadNothing(s: Sys, step: Step, r: Id, p: Pending)
    requires RequestOf(step).None? && r !in s.pending
    ensures r !in Exec(s, step).sys.pending && !Reads(s.db, step, r, p)
  {
    hide Login, Refresh, Logout, ChangePassword, CompleteReset, CompleteRegistration, RequestReset, RequestRegistration,
      ChangeStatus, AddUser, HashIs, Names, Live, NamesReset, NamesRegistration;
  }

  // ------------------------------------------------------------------- whole runs

  /** Every waiting request was made at some earlier step, rightly, and has waited since. */
  lemma {:induction false} WaitingWasRead(run: seq<Step>, r: Id) returns (i: nat)
    requires r in After(run).pending
    ensures i < |run| && r !in After(run[..i]).pending
    ensures Reads(StateAt(run, i), run[i], r, After(run).pending[r])
    ensures forall k :: i < k <= |run| ==> r in After(run[..k]).pending
  {
    hide Reads, Exec, Inv;
    var n := |run| - 1;
    var front := run[..n];
    assert After(run) == Exec(After(front), run[n]).sys;
    assert run[..|run|] == run;
    if r in After(front).pending {
      i := WaitingWasRead(front, r);
      PendingKept(After(front), run[n], r);
      assert front[..i] == run[..i];
      forall k | i < k <= |run| ensures r in After(run[..k]).pending {
        if k <= n { assert front[..k] == run[..k]; }
      }
    } else {
      i := n;
      RunsKeepInvariant(front);
      ReadsAreNoted(After(front), run[n], r, After(run).pending[r]);
    }
  }

  /** The outcome obtains what the waiting request is for. */
  predicate Serves(o: Outcome, p: Pending) {
    match o
    case LoggedIn(u, _, _, h) => p == LoginPending(u, h)
    case Rotated(f, t, _) => p.RefreshPending? && p.target.family == f && p.target.token == t
    case ReuseRevoked(f, t) => p.RefreshPending? && p.target.family == f && p.target.token == t
    case SignedOut(f, t) => p.LogoutPending? && p.target.family == f && p.target.token == t
    case PasswordChanged(u, f, t, h, _) => p.ChangePending? && p.target == Target(u, f, t) && p.verified == h
    case PasswordReset(u, c, t, h, _) => p.ResetPending? && p.mail == MailTarget(u, c, t) && p.verified == h
    case Registered(_, c, t) => p.RegisterPending? && p.mail.challenge == c && p.mail.token == t
    case _ => false
  }

  predicate AnswersRequest(o: Outcome) {
    o.LoggedIn? || o.Rotated? || o.ReuseRevoked? || o.SignedOut? || o.PasswordChanged? || o.PasswordReset?
    || o.Registered?
  }

  predicate IsCommit(step: Step) {
    step.CommitLogin? || step.CommitRefresh? || step.CommitLogout? || step.CommitChange? || step.CommitReset?
    || step.CommitRegister?
  }

  lemma AnswersServe(s: Sys, step: Step)
    requires AnswersRequest(Exec(s, step).outcome)
    ensures IsCommit(step) && step.request in s.pending
    ensures Serves(Exec(s, step).outcome, s.pending[step.request])
  {
    hide FirstFree, FirstFreeMail, FindRefresh, FindReset, FindRegistration, RevokeAll, RevokeAllChallenges, ReadLogin,
      ReadChange, ReadReset, Live, ResetUsable, RegistrationUsable, EmailTaken, OpenReset, OpenRegistration;
  }

  /**
   Whatever is granted was asked for: at some earlier point of the run the request was made,
   with the password that fits or the token it names, and has been waiting since.
   */
  lemma GrantsAnswerRequests(run: seq<Step>, j: nat) returns (i: nat)
    requires j < |run| && AnswersRequest(OutcomeAt(run, j))
    ensures i < j && IsCommit(run[j]) && run[j].request in After(run[..j]).pending
    ensures Reads(StateAt(run, i), run[i], run[j].request, After(run[..j]).pending[run[j].request])
    ensures Serves(OutcomeAt(run, j), After(run[..j]).pending[run[j].request])
  {
    hide Exec, Reads, Serves, AnswersRequest;
    AnswersServe(After(run[..j]), run[j]);
    i := WaitingWasRead(run[..j], run[j].request);
    assert run[..j][..i] == run[..i];
  }

  /** Nobody signs in without the password: the request gave the user's email and its verifier said yes. */
  lemma LoginNeedsThePassword(run: seq<Step>, j: nat) returns (i: nat)
    requires j < |run| && OutcomeAt(run, j).LoggedIn?
    ensures var u := OutcomeAt(run, j).user;
      && i < j && IsCommit(run[j]) && CurrentUser(StateAt(run, i), u)
      && run[i] == BeginLogin(run[j].request, StateAt(run, i).users[u].email, true)
  {
    hide Exec;
    i := GrantsAnswerRequests(run, j);
  }

  /** Nobody changes a password without it, nor with another user's access token. */
  lemma ChangeNeedsThePassword(run: seq<Step>, j: nat) returns (i: nat)
    requires j < |run| && OutcomeAt(run, j).PasswordChanged?
    ensures var o := OutcomeAt(run, j);
      && i < j && IsCommit(run[j]) && o.token in StateAt(run, i).tokens
      && run[i] == BeginChange(run[j].request, StateAt(run, i).tokens[o.token].digest, o.user, true)
  {
    hide Exec;
    i := GrantsAnswerRequests(run, j);
  }

  /** A rightly made request is ready at once, if its token or challenge is still good. */
  lemma RightRequestsAreReady(db: Db, step: Step, r: Id, p: Pending)
    requires Reads(db, step, r, p)
    ensures match p
      case LoginPending(_, _) => Ready(db, p)
      case ChangePending(_, _, _) => Ready(db, p)
      case RefreshPending(t, d) => Ready(db, p) <==> CurrentUser(db, t.user) && GoodToken(db, t)
      case LogoutPending(t, d) => Ready(db, p) <==> t.user in db.users && GoodToken(db, t)
      case ResetPending(m, d, _) =>
        Ready(db, p) <==> db.challenges[m.challenge].status == Active && db.now < db.challenges[m.challenge].expiresAt
                          && db.resetTokens[m.token].usedAt.None?
      case RegisterPending(m, d) =>
        Ready(db, p) <==> db.registrations[m.challenge].status == Active
                          && db.now < db.registrations[m.challenge].expiresAt
                          && db.registrationTokens[m.token].usedAt.None? && !EmailTaken(db, m.owner)
  {
    hide EmailTaken;
  }

  /** An unused token of an ACTIVE family that has not expired. */
  predicate GoodToken(db: Db, t: Target) {
    && t.family in db.families && db.families[t.family].active && db.now < db.families[t.family].expiresAt
    && t.token in db.tokens && db.tokens[t.token].usedAt.None?
  }
}
