/**
 Requests in flight. Each request reads a snapshot, works without locks, and later
 commits one transaction that rechecks what it read. The steps of different
 requests interleave freely; database time never goes back.
 */
module CredentialProtocol {
  import opened Wrappers
  import opened Ordering
  import opened Credentials
  import opened CredentialInvariants

  /** What a request carries from its read to its commit. */
  datatype Pending =
    | LoginPending(user: Id, verified: Hash)
    | RefreshPending(target: Target, digest: Digest)
    | LogoutPending(target: Target, digest: Digest)
    | ChangePending(target: Target, digest: Digest, verified: Hash)
    | ResetPending(mail: MailTarget, digest: Digest, verified: Hash)
    | RegisterPending(mail: MailTarget, digest: Digest)

  datatype Sys = Sys(db: Db, pending: map<Id, Pending>)

  const START := Sys(EMPTY, map[])

  datatype Step =
    // Reads. The verifier's answer is an input.
    | BeginLogin(request: Id, email: Email, matches: bool)
    | BeginRefresh(request: Id, digest: Digest)
    | BeginLogout(request: Id, digest: Digest)
    | BeginChange(request: Id, digest: Digest, principal: Id, matches: bool)
    | BeginReset(request: Id, digest: Digest)
    | BeginRegister(request: Id, digest: Digest)
    // Commits. What the generators and the hasher return is an input.
    | CommitLogin(request: Id, minted: Minted)
    | CommitRefresh(request: Id, replacement: Id, candidates: seq<Digest>)
    | CommitLogout(request: Id)
    | CommitChange(request: Id, hash: Hash, minted: Minted)
    | CommitReset(request: Id, hash: Hash)
    | CommitRegister(request: Id, allowed: bool, user: Id, hash: Hash, minted: Minted)
    | AskReset(user: Id, email: Email, challenge: Id, token: Id, candidates: seq<Digest>)
    | AskRegistration(email: Email, allowed: bool, challenge: Id, token: Id, candidates: seq<Digest>)
    | SetStatus(user: Id, active: bool)
    | Bootstrap(user: Id, email: Email, hash: Hash)
    | Wait(elapsed: nat)

  datatype Next = Next(sys: Sys, outcome: Outcome)

  function Note(s: Sys, request: Id, p: Option<Pending>): Next {
    if request in s.pending || p.None? then Next(s, Refused(InvalidSession))
    else Next(s.(pending := s.pending[request := p.value]), Noted)
  }

  function UserByEmail(db: Db, email: Email): (r: Option<Id>)
    ensures r.Some? ==> r.value in db.users && db.users[r.value].email == email
  {
    var found := set u | u in db.users && db.users[u].email == email;
    if found == {} then None else Some(Least(found))
  }

  function ReadLogin(db: Db, email: Email, matches: bool): Option<Pending> {
    match UserByEmail(db, email)
    case None => None
    case Some(u) => if matches && db.users[u].active then Some(LoginPending(u, db.users[u].hash)) else None
  }

  /** Finds the token, then validates session and principal in a first, read-only transaction. */
  function ReadChange(db: Db, d: Digest, principal: Id, matches: bool): Option<Pending> {
    match FindRefresh(db, d)
    case None => None
    case Some(t) =>
      if t.user == principal && CurrentUser(db, t.user) && Live(db, t, d) && matches
      then Some(ChangePending(t, d, db.users[t.user].hash)) else None
  }

  function ReadReset(db: Db, d: Digest): Option<Pending> {
    match FindReset(db, d)
    case None => None
    case Some(t) => if CurrentUser(db, t.owner) then Some(ResetPending(t, d, db.users[t.owner].hash)) else None
  }

  function Commit(s: Sys, request: Id, tx: Tx): Next { Next(Sys(tx.db, s.pending - {request}), tx.outcome) }

  function Absent(s: Sys): Next { Next(s, Refused(InvalidSession)) }

  function Exec(s: Sys, step: Step): Next {
    var db := s.db;
    match step
    case BeginLogin(r, email, matches) => Note(s, r, ReadLogin(db, email, matches))
    case BeginRefresh(r, d) =>
      Note(s, r, if FindRefresh(db, d).None? then None else Some(RefreshPending(FindRefresh(db, d).value, d)))
    case BeginLogout(r, d) =>
      Note(s, r, if FindRefresh(db, d).None? then None else Some(LogoutPending(FindRefresh(db, d).value, d)))
    case BeginChange(r, d, principal, matches) => Note(s, r, ReadChange(db, d, principal, matches))
    case BeginReset(r, d) => Note(s, r, ReadReset(db, d))
    case BeginRegister(r, d) =>
      Note(s, r, if FindRegistration(db, d).None? then None
                 else Some(RegisterPending(FindRegistration(db, d).value, d)))
    case CommitLogin(r, minted) =>
      if r in s.pending && s.pending[r].LoginPending?
      then Commit(s, r, Login(db, s.pending[r].user, s.pending[r].verified, minted)) else Absent(s)
    case CommitRefresh(r, replacement, candidates) =>
      if r in s.pending && s.pending[r].RefreshPending?
      then Commit(s, r, Refresh(db, s.pending[r].target, s.pending[r].digest, replacement, candidates)) else Absent(s)
    case CommitLogout(r) =>
      if r in s.pending && s.pending[r].LogoutPending?
      then Commit(s, r, Logout(db, s.pending[r].target, s.pending[r].digest)) else Absent(s)
    case CommitChange(r, hash, minted) =>
      if r in s.pending && s.pending[r].ChangePending?
      then
        var p := s.pending[r];
        Commit(s, r, ChangePassword(db, p.target, p.digest, p.verified, hash, minted))
      else Absent(s)
    case CommitReset(r, hash) =>
      if r in s.pending && s.pending[r].ResetPending?
      then Commit(s, r, CompleteReset(db, s.pending[r].mail, s.pending[r].digest, s.pending[r].verified, hash))
      else Absent(s)
    case CommitRegister(r, allowed, user, hash, minted) =>
      if r in s.pending && s.pending[r].RegisterPending?
      then Commit(s, r, CompleteRegistration(db, s.pending[r].mail, s.pending[r].digest, allowed, user, hash, minted))
      else Absent(s)
    case AskReset(user, email, c, t, candidates) =>
      var tx := RequestReset(db, user, email, c, t, candidates); Next(s.(db := tx.db), tx.outcome)
    case AskRegistration(email, allowed, c, t, candidates) =>
      var tx := RequestRegistration(db, email, allowed, c, t, candidates); Next(s.(db := tx.db), tx.outcome)
    case SetStatus(user, active) => var tx := ChangeStatus(db, user, active); Next(s.(db := tx.db), tx.outcome)
    case Bootstrap(user, email, hash) => var tx := AddUser(db, user, email, hash); Next(s.(db := tx.db), tx.outcome)
    case Wait(elapsed) => Next(s.(db := db.(now := db.now + elapsed)), Noted)
  }

  /** The hash a step would store, if any. */
  function HashOf(step: Step): Option<Hash> {
    match step
    case CommitChange(_, h, _) => Some(h)
    case CommitReset(_, h) => Some(h)
    case CommitRegister(_, _, _, h, _) => Some(h)
    case Bootstrap(_, _, h) => Some(h)
    case _ => None
  }

  /** The hasher salts: it never returns a string it returned before. */
  predicate HasherIsFresh(s: Sys, step: Step) {
    HashOf(step).Some? ==> HashOf(step).value !in s.db.hashes
  }

  function After(run: seq<Step>): Sys {
    if run == [] then START else Exec(After(run[..|run| - 1]), run[|run| - 1]).sys
  }

  function StateAt(run: seq<Step>, i: nat): Db
    requires i <= |run|
  {
    After(run[..i]).db
  }

  function OutcomeAt(run: seq<Step>, i: nat): Outcome
    requires i < |run|
  {
    Exec(After(run[..i]), run[i]).outcome
  }

  predicate Legal(run: seq<Step>) {
    forall i :: 0 <= i < |run| ==> HasherIsFresh(After(run[..i]), run[i])
  }

  // ----------------------------------------------------------------- invariant

  lemma ExecKeeps(s: Sys, step: Step)
    requires Inv(s.db)
    ensures Inv(Exec(s, step).sys.db)
  {
    hide Inv, Login, Refresh, Logout, ChangePassword, CompleteReset, CompleteRegistration, RequestReset,
      RequestRegistration,
         ChangeStatus, AddUser, FindRefresh, FindReset, FindRegistration, ReadLogin, ReadChange, ReadReset;
    var db := s.db;
    match step
    case BeginLogin(r, email, matches) =>
    case BeginRefresh(r, d) =>
    case BeginLogout(r, d) =>
    case BeginChange(r, d, principal, matches) =>
    case BeginReset(r, d) =>
    case BeginRegister(r, d) =>
    case CommitLogin(r, minted) =>
      if r in s.pending && s.pending[r].LoginPending? {
        LoginKeeps(db, s.pending[r].user, s.pending[r].verified, minted);
      }
    case CommitRefresh(r, replacement, candidates) =>
      if r in s.pending && s.pending[r].RefreshPending? {
        RefreshKeeps(db, s.pending[r].target, s.pending[r].digest, replacement, candidates);
      }
    case CommitLogout(r) =>
      if r in s.pending && s.pending[r].LogoutPending? { LogoutKeeps(db, s.pending[r].target, s.pending[r].digest); }
    case CommitChange(r, hash, minted) =>
      if r in s.pending && s.pending[r].ChangePending? {
        ChangePasswordKeeps(db, s.pending[r].target, s.pending[r].digest, s.pending[r].verified, hash, minted);
      }
    case CommitReset(r, hash) =>
      if r in s.pending && s.pending[r].ResetPending? {
        CompleteResetKeeps(db, s.pending[r].mail, s.pending[r].digest, s.pending[r].verified, hash);
      }
    case CommitRegister(r, allowed, user, hash, minted) =>
      if r in s.pending && s.pending[r].RegisterPending? {
        CompleteRegistrationKeeps(db, s.pending[r].mail, s.pending[r].digest, allowed, user, hash, minted);
      }
    case AskReset(user, email, c, t, candidates) => RequestResetKeeps(db, user, email, c, t, candidates);
    case AskRegistration(email, allowed, c, t, candidates) =>
      RequestRegistrationKeeps(db, email, allowed, c, t, candidates);
    case SetStatus(user, active) => ChangeStatusKeeps(db, user, active);
    case Bootstrap(user, email, hash) => AddUserKeeps(db, user, email, hash);
    case Wait(elapsed) => TimePasses(db, elapsed);
  }

  lemma {:induction false} RunsKeepInvariant(run: seq<Step>)
    ensures Inv(After(run).db)
  {
    if run != [] {
      RunsKeepInvariant(run[..|run| - 1]);
      ExecKeeps(After(run[..|run| - 1]), run[|run| - 1]);
    }
  }

  /** One ACTIVE family per user, and nothing ACTIVE for a disabled one. */
  lemma ActiveCredentials(run: seq<Step>, user: Id)
    ensures var db := After(run).db;
            (forall f, g :: f in ActiveFamilies(db, user) && g in ActiveFamilies(db, user) ==> f == g)
            && (forall c, e :: c in ActiveChallenges(db, user) && e in ActiveChallenges(db, user) ==> c == e)
            && (user in db.users && !db.users[user].active ==>
                  ActiveFamilies(db, user) == {} && ActiveChallenges(db, user) == {})
  {
    RunsKeepInvariant(run);
    var db := After(run).db;
    forall f | f in ActiveFamilies(db, user) ensures user in Enabled(db.users) {
      assert FamilyOk(db.families[f], db.users.Keys, Enabled(db.users), db.now);
    }
    forall c | c in ActiveChallenges(db, user) ensures user in Enabled(db.users) {
      assert ChallengeOk(db.challenges[c], db.users.Keys, Enabled(db.users), db.now);
    }
  }

  /** Every family's tokens form one acyclic hand-over path with a single unused token at its end. */
  lemma RotationPath(run: seq<Step>, f: Id) returns (chain: seq<Id>)
    requires f in After(run).db.families
    ensures IsChain(After(run).db.tokens, f, chain)
    ensures forall t :: t in After(run).db.tokens && After(run).db.tokens[t].family == f ==>
              (After(run).db.tokens[t].usedAt.None? <==> t == chain[|chain| - 1])
  {
    hide UsersOk, FamiliesOk, TokensOk, ChallengesOk, MailTokensOk, RegistrationsOk;
    RunsKeepInvariant(run);
    var tokens := After(run).db.tokens;
    assert HasChain(tokens, f);
    chain :| IsChain(tokens, f, chain);
    forall t | t in tokens && tokens[t].family == f ensures tokens[t].usedAt.None? <==> t == chain[|chain| - 1] {
      if tokens[t].usedAt.None? { OnlyLastIsUnused(tokens, f, chain, t); }
    }
  }

  /** One ACTIVE registration per email, and one user per email. */
  lemma EmailsAreServedOnce(run: seq<Step>, email: Email)
    ensures var db := After(run).db;
            (forall c, e :: c in ActiveRegistrations(db, email) && e in ActiveRegistrations(db, email) ==> c == e)
            && (forall u, v :: u in db.users && v in db.users
                  && db.users[u].email == email && db.users[v].email == email
                  ==> u == v)
  {
    RunsKeepInvariant(run);
  }
}
