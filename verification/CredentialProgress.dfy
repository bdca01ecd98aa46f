/** A request whose user or email nobody touched meanwhile is granted what it asked for. */
module CredentialProgress {
  import opened Wrappers
  import opened Ordering
  import opened Credentials
  import opened CredentialInvariants
  import opened CredentialProtocol
  import opened CredentialHistory
  import opened CredentialIsolation

  /** Whom a request acts for: a user, or an email that has none yet. */
  datatype Subject = OfUser(user: Id) | OfEmail(email: Email)

  function SubjectOf(p: Pending): Subject {
    match p
    case LoginPending(u, _) => OfUser(u)
    case RefreshPending(t, _) => OfUser(t.user)
    case LogoutPending(t, _) => OfUser(t.user)
    case ChangePending(t, _, _) => OfUser(t.user)
    case ResetPending(m, _, _) => OfUser(m.owner)
    case RegisterPending(m, _) => OfEmail(m.owner)
  }

  predicate Same(a: Db, b: Db, who: Subject) {
    match who
    case OfUser(v) => SameRows(a, b, v)
    case OfEmail(e) => SameSignup(a, b, e)
  }

  /** The step at `k` concerned somebody else. */
  predicate UndisturbedAt(run: seq<Step>, k: nat, who: Subject)
    requires k < |run|
  {
    match who
    case OfUser(v) => !Concerns(StateAt(run, k + 1), OutcomeAt(run, k), v)
    case OfEmail(e) => !ConcernsEmail(StateAt(run, k + 1), OutcomeAt(run, k), e)
  }

  lemma SameItself(db: Db, who: Subject)
    ensures Same(db, db, who)
  {
    match who
    case OfUser(v) => SameAsItself(db, v);
    case OfEmail(e) => SignupLeftAlone(db, db, e);
  }

  lemma SameJoins(a: Db, b: Db, c: Db, who: Subject)
    requires Same(a, b, who) && Same(b, c, who)
    ensures Same(a, c, who)
  {
    hide SameRows, SameSignup;
    match who
    case OfUser(v) => SameRowsTransitive(a, b, c, v);
    case OfEmail(e) => SameSignupTransitive(a, b, c, e);
  }

  lemma UndisturbedIsSame(run: seq<Step>, k: nat, who: Subject)
    requires k < |run| && UndisturbedAt(run, k, who)
    ensures Same(StateAt(run, k), StateAt(run, k + 1), who)
  {
    hide SameRows, SameSignup, Concerns, ConcernsEmail, Exec;
    LastStep(run, k + 1);
    match who
    case OfUser(v) => OthersAreUntouched(After(run[..k]), run[k], v);
    case OfEmail(e) => OtherEmailsAreUntouched(After(run[..k]), run[k], e);
  }

  lemma {:induction false} RowsAreKept(run: seq<Step>, i: nat, j: nat, who: Subject)
    requires i <= j <= |run| && forall k :: i <= k < j ==> UndisturbedAt(run, k, who)
    ensures Same(StateAt(run, i), StateAt(run, j), who)
    decreases j
  {
    hide Same, Exec;
    if i == j {
      SameItself(StateAt(run, i), who);
    } else {
      RowsAreKept(run, i, j - 1, who);
      assert UndisturbedAt(run, j - 1, who);
      UndisturbedIsSame(run, j - 1, who);
      SameJoins(StateAt(run, i), StateAt(run, j - 1), StateAt(run, j), who);
    }
  }

  lemma {:induction false} StillWaiting(run: seq<Step>, i: nat, j: nat, r: Id)
    requires i <= j <= |run| && forall k :: i <= k <= j ==> r in After(run[..k]).pending
    ensures After(run[..j]).pending[r] == After(run[..i]).pending[r]
    decreases j
  {
    hide Exec;
    if i < j {
      StillWaiting(run, i, j - 1, r);
      LastStep(run, j);
      PendingKept(After(run[..j - 1]), run[j - 1], r);
    }
  }

  /** The request's family or challenge has not expired yet. */
  predicate InTime(db: Db, p: Pending) {
    match p
    case RefreshPending(t, _) => t.family in db.families ==> db.now < db.families[t.family].expiresAt
    case LogoutPending(t, _) => t.family in db.families ==> db.now < db.families[t.family].expiresAt
    case ChangePending(t, _, _) => t.family in db.families ==> db.now < db.families[t.family].expiresAt
    case ResetPending(m, _, _) => m.challenge in db.challenges ==> db.now < db.challenges[m.challenge].expiresAt
    case RegisterPending(m, _) =>
      m.challenge in db.registrations ==> db.now < db.registrations[m.challenge].expiresAt
    case _ => true
  }

  predicate HashIs(db: Db, u: Id, h: Hash) { CurrentUser(db, u) && db.users[u].hash == h }

  /** What the request read still holds. */
  predicate Ready(db: Db, p: Pending) {
    match p
    case LoginPending(u, h) => HashIs(db, u, h)
    case RefreshPending(t, d) => CurrentUser(db, t.user) && Live(db, t, d)
    case LogoutPending(t, d) => t.user in db.users && Live(db, t, d)
    case ChangePending(t, d, h) => HashIs(db, t.user, h) && Live(db, t, d)
    case ResetPending(m, d, h) => HashIs(db, m.owner, h) && ResetUsable(db, m, d)
    case RegisterPending(m, d) => RegistrationUsable(db, m, d) && !EmailTaken(db, m.owner)
  }

  lemma ReadyStays(a: Db, b: Db, p: Pending)
    requires Same(a, b, SubjectOf(p)) && Ready(a, p) && InTime(b, p)
    ensures Ready(b, p)
  {
    hide EmailTaken;
  }

  /** The inputs serve: identifiers are new, some candidate digest is free, the email's domain is allowed. */
  predicate InputsServe(db: Db, step: Step) {
    match step
    case CommitLogin(_, minted) => ChosenDigest(db, minted).Some?
    case CommitRefresh(_, replacement, candidates) =>
      replacement !in db.tokens && FirstFree(db.tokens, Attempts(candidates)).Some?
    case CommitChange(_, _, minted) => ChosenDigest(db, minted).Some?
    case CommitRegister(_, allowed, user, _, minted) =>
      allowed && user !in db.users && ChosenDigest(db, minted).Some?
    case _ => true
  }

  /** The step that commits a request of this kind. */
  predicate Commits(step: Step, r: Id, p: Pending) {
    match p
    case LoginPending(_, _) => step.CommitLogin? && step.request == r
    case RefreshPending(_, _) => step.CommitRefresh? && step.request == r
    case LogoutPending(_, _) => step.CommitLogout? && step.request == r
    case ChangePending(_, _, _) => step.CommitChange? && step.request == r
    case ResetPending(_, _, _) => step.CommitReset? && step.request == r
    case RegisterPending(_, _) => step.CommitRegister? && step.request == r
  }

  /** The request obtained what it asked for, and its user's credentials are as they should be then. */
  predicate Granted(next: Db, o: Outcome, p: Pending) {
    match p
    case LoginPending(u, h) =>
      o.LoggedIn? && o.user == u && o.verified == h && OnlyFamily(next, u, o.family)
      && OnlyToken(next, o.family, o.token)
    case RefreshPending(t, _) =>
      o.Rotated? && o.family == t.family && o.token == t.token
      && t.token in next.tokens && next.tokens[t.token].usedAt == Some(next.now)
      && next.tokens[t.token].replacedBy == Some(o.replacement)
      && o.replacement in next.tokens && next.tokens[o.replacement].usedAt.None?
      && next.tokens[o.replacement].issuedAt == next.now
    case LogoutPending(t, _) => o == SignedOut(t.family, t.token) && t.family !in ActiveFamilies(next, t.user)
    case ChangePending(t, _, h) =>
      o.PasswordChanged? && o.user == t.user && o.verified == h && HashIs(next, t.user, o.hash)
      && ActiveChallenges(next, t.user) == {}
      && (exists f :: f in next.families && f != t.family && OnlyFamily(next, t.user, f))
    case ResetPending(m, _, h) =>
      o.PasswordReset? && o.user == m.owner && o.verified == h && HashIs(next, m.owner, o.hash)
      && ActiveFamilies(next, m.owner) == {} && m.challenge !in ActiveChallenges(next, m.owner)
    case RegisterPending(m, _) =>
      o.Registered? && o.challenge == m.challenge && o.token == m.token
      && CurrentUser(next, o.user) && next.users[o.user].email == m.owner
      && m.challenge !in ActiveRegistrations(next, m.owner)
      && (exists f :: f in next.families && OnlyFamily(next, o.user, f))
  }

  /** The user's one ACTIVE family, created now and lasting seven days. */
  predicate OnlyFamily(db: Db, u: Id, f: Id) {
    ActiveFamilies(db, u) == {f} && f in db.families && db.families[f].createdAt == db.now
    && db.families[f].expiresAt == db.now + FAMILY_LIFE
  }

  predicate OnlyToken(db: Db, f: Id, t: Id) {
    t in db.tokens && db.tokens[t].family == f && db.tokens[t].usedAt.None? && db.tokens[t].issuedAt == db.now
  }

  lemma IssuedIsOnlyFamily(db: Db, u: Id, minted: Minted, d: Digest)
    requires !IdsTaken(db, minted)
    ensures var next := IssueFamily(db, u, minted, d);
      OnlyFamily(next, u, minted.family) && OnlyToken(next, minted.family, minted.token)
  {
    var next := IssueFamily(db, u, minted, d);
    assert forall f :: f in ActiveFamilies(next, u) <==> f == minted.family;
  }

  lemma ReadyLoginIsGranted(db: Db, u: Id, h: Hash, minted: Minted)
    requires HashIs(db, u, h) && ChosenDigest(db, minted).Some?
    ensures var tx := Login(db, u, h, minted); Granted(tx.db, tx.outcome, LoginPending(u, h))
  {
    IssuedIsOnlyFamily(db, u, minted, ChosenDigest(db, minted).value);
    hide IssueFamily, FirstFree, OnlyFamily, OnlyToken;
  }

  lemma ReadyRefreshIsGranted(db: Db, t: Target, d: Digest, r: Id, candidates: seq<Digest>)
    requires CurrentUser(db, t.user) && Live(db, t, d) && r !in db.tokens
    requires FirstFree(db.tokens, Attempts(candidates)).Some?
    ensures var tx := Refresh(db, t, d, r, candidates); Granted(tx.db, tx.outcome, RefreshPending(t, d))
  {
    hide FirstFree;
  }

  lemma ReadyLogoutIsGranted(db: Db, t: Target, d: Digest)
    requires t.user in db.users && Live(db, t, d)
    ensures var tx := Logout(db, t, d); Granted(tx.db, tx.outcome, LogoutPending(t, d))
  {
  }

  lemma ReadyChangeIsGranted(db: Db, t: Target, d: Digest, h: Hash, hash: Hash, minted: Minted)
    requires HashIs(db, t.user, h) && Live(db, t, d) && ChosenDigest(db, minted).Some?
    ensures var tx := ChangePassword(db, t, d, h, hash, minted); Granted(tx.db, tx.outcome, ChangePending(t, d, h))
  {
    var digest := ChosenDigest(db, minted).value;
    IssuedIsOnlyFamily(db, t.user, minted, digest);
    var next := ChangePassword(db, t, d, h, hash, minted).db;
    var issued := IssueFamily(db, t.user, minted, digest);
    hide IssueFamily, FirstFree;
    assert next.families == issued.families && next.now == issued.now;
    assert ActiveFamilies(next, t.user) == ActiveFamilies(issued, t.user);
    assert OnlyFamily(next, t.user, minted.family);
    assert ActiveChallenges(next, t.user) == {} by { hide OnlyFamily; }
  }

  lemma ReadyResetIsGranted(db: Db, m: MailTarget, d: Digest, h: Hash, hash: Hash)
    requires HashIs(db, m.owner, h) && ResetUsable(db, m, d)
    ensures var tx := CompleteReset(db, m, d, h, hash); Granted(tx.db, tx.outcome, ResetPending(m, d, h))
  {
    var next := CompleteReset(db, m, d, h, hash).db;
    assert forall f :: f in db.families && db.families[f].user == m.owner ==> !next.families[f].active;
    assert ActiveFamilies(next, m.owner) == {};
  }

  lemma ReadyRegistrationIsGranted(db: Db, m: MailTarget, d: Digest, user: Id, hash: Hash, minted: Minted)
    requires Inv(db) && RegistrationUsable(db, m, d) && !EmailTaken(db, m.owner)
    requires user !in db.users && ChosenDigest(db, minted).Some?
    ensures var tx := CompleteRegistration(db, m, d, true, user, hash, minted);
      Granted(tx.db, tx.outcome, RegisterPending(m, d))
  {
    FamiliesKnown(db);
    hide Inv, FirstFree, EmailTaken, OnlyFamily, NewFamily;
    var next := CompleteRegistration(db, m, d, true, user, hash, minted).db;
    FirstFamilyIsOnly(db, next, user, minted.family);
    assert m.challenge !in ActiveRegistrations(next, m.owner) by { hide NewToken; }
  }

  lemma FirstFamilyIsOnly(db: Db, next: Db, u: Id, f: Id)
    requires next.now == db.now && next.families == db.families[f := NewFamily(db, u)]
    requires forall g :: g in db.families ==> db.families[g].user != u
    ensures OnlyFamily(next, u, f)
  {
    assert forall g :: g in ActiveFamilies(next, u) <==> g == f;
  }

  lemma ReadyIsGranted(s: Sys, r: Id, step: Step)
    requires Inv(s.db)
    requires r in s.pending && Commits(step, r, s.pending[r]) && Ready(s.db, s.pending[r]) && InputsServe(s.db, step)
    ensures Granted(Exec(s, step).sys.db, Exec(s, step).outcome, s.pending[r])
  {
    hide Inv, Granted, Login, Refresh, Logout, ChangePassword, CompleteReset, CompleteRegistration, Live, HashIs,
      ResetUsable, RegistrationUsable, EmailTaken, ChosenDigest, FirstFree;
    var db := s.db;
    match s.pending[r]
    case LoginPending(u, h) => ReadyLoginIsGranted(db, u, h, step.minted);
    case RefreshPending(t, d) => ReadyRefreshIsGranted(db, t, d, step.replacement, step.candidates);
    case LogoutPending(t, d) => ReadyLogoutIsGranted(db, t, d);
    case ChangePending(t, d, h) => ReadyChangeIsGranted(db, t, d, h, step.hash, step.minted);
    case ResetPending(m, d, h) => ReadyResetIsGranted(db, m, d, h, step.hash);
    case RegisterPending(m, d) => ReadyRegistrationIsGranted(db, m, d, step.user, step.hash, step.minted);
  }

  /**
   A request that could have been granted when it read its snapshot at `i` is granted when it
   commits at `j`, however many steps for others ran in between, provided nothing touched its
   own user or email, its time is not up, and its inputs serve.
   */
  lemma UndisturbedRequestsAreGranted(run: seq<Step>, i: nat, j: nat, r: Id)
    requires i <= j < |run|
    requires forall k :: i <= k <= j ==> r in After(run[..k]).pending
    requires var p := After(run[..i]).pending[r]; Ready(StateAt(run, i), p) && Commits(run[j], r, p)
    requires forall k :: i <= k < j ==> UndisturbedAt(run, k, SubjectOf(After(run[..i]).pending[r]))
    requires InTime(StateAt(run, j), After(run[..i]).pending[r]) && InputsServe(StateAt(run, j), run[j])
    ensures Granted(StateAt(run, j + 1), OutcomeAt(run, j), After(run[..i]).pending[r])
  {
    hide Same, Ready, InTime, InputsServe, Granted, Exec, Commits, Inv, SubjectOf, UndisturbedAt;
    var p := After(run[..i]).pending[r];
    RowsAreKept(run, i, j, SubjectOf(p));
    StillWaiting(run, i, j, r);
    ReadyStays(StateAt(run, i), StateAt(run, j), p);
    LastStep(run, j + 1);
    RunsKeepInvariant(run[..j]);
    ReadyIsGranted(After(run[..j]), r, run[j]);
  }
}
