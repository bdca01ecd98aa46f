/**
 The credential transactions as they run: rows are locked in identifier order and
 changed one by one; a failure restores every row.
 */
module CredentialStore {
  import opened Wrappers
  import opened Ordering
  import opened Credentials

  /** The families after those listed have been revoked. */
  predicate PartlyRevoked(a: map<Id, Family>, b: map<Id, Family>, ids: seq<Id>, at: Time) {
    b.Keys == a.Keys && forall f :: f in a ==> b[f] == if f in ids then Revoke(a[f], at) else a[f]
  }

  lemma StartRevoking(a: map<Id, Family>, at: Time)
    ensures PartlyRevoked(a, a, [], at)
  {
  }

  lemma RevokeNext(a: map<Id, Family>, b: map<Id, Family>, ids: seq<Id>, f: Id, at: Time)
    requires PartlyRevoked(a, b, ids, at) && f in a && f !in ids
    ensures PartlyRevoked(a, b[f := Revoke(b[f], at)], ids + [f], at)
  {
  }

  lemma RevokedOneByOne(db: Db, user: Id, ids: seq<Id>, families: map<Id, Family>)
    requires forall f :: f in ids <==> f in ActiveFamilies(db, user)
    requires PartlyRevoked(db.families, families, ids, db.now)
    ensures families == RevokeAll(db, user)
  {
    forall f | f in db.families ensures families[f] == RevokeAll(db, user)[f] {
      assert f in ids <==> db.families[f].user == user && db.families[f].active;
    }
  }

  predicate PartlyClosed(a: map<Id, Challenge>, b: map<Id, Challenge>, ids: seq<Id>, at: Time) {
    b.Keys == a.Keys && forall c :: c in a ==> b[c] == if c in ids then RevokeChallenge(a[c], at) else a[c]
  }

  lemma StartClosing(a: map<Id, Challenge>, at: Time)
    ensures PartlyClosed(a, a, [], at)
  {
  }

  lemma CloseNext(a: map<Id, Challenge>, b: map<Id, Challenge>, ids: seq<Id>, c: Id, at: Time)
    requires PartlyClosed(a, b, ids, at) && c in a && c !in ids
    ensures PartlyClosed(a, b[c := RevokeChallenge(b[c], at)], ids + [c], at)
  {
  }

  lemma ClosedOneByOne(db: Db, user: Id, ids: seq<Id>, challenges: map<Id, Challenge>)
    requires forall c :: c in ids <==> c in ActiveChallenges(db, user)
    requires PartlyClosed(db.challenges, challenges, ids, db.now)
    ensures challenges == RevokeAllChallenges(db, user)
  {
    forall c | c in db.challenges ensures challenges[c] == RevokeAllChallenges(db, user)[c] {
      assert c in ids <==> db.challenges[c].user == user && db.challenges[c].status == Active;
    }
  }

  class Store {
    var now: Time
    var users: map<Id, User>
    var families: map<Id, Family>
    var tokens: map<Id, Token>
    var challenges: map<Id, Challenge>
    var resetTokens: map<Id, MailToken>
    var registrations: map<Id, Registration>
    var registrationTokens: map<Id, MailToken>
    var hashes: set<Hash>

    function View(): Db
      reads this
    {
      Db(now, users, families, tokens, challenges, resetTokens, registrations, registrationTokens, hashes)
    }

    constructor ()
      ensures View() == EMPTY
    {
      now, users, families, tokens, challenges := 0, map[], map[], map[], map[];
      resetTokens, registrations, registrationTokens, hashes := map[], map[], map[], {};
    }

    method Rollback(saved: Db)
      modifies this
      ensures View() == saved
    {
      now, users, families, tokens := saved.now, saved.users, saved.families, saved.tokens;
      challenges := saved.challenges;
      resetTokens, registrations := saved.resetTokens, saved.registrations;
      registrationTokens, hashes := saved.registrationTokens, saved.hashes;
    }

    // ------------------------------------------------------------- row updates

    /** Revokes the user's ACTIVE families, locked by ascending identifier. */
    method RevokeFamilies(user: Id)
      modifies this
      ensures View() == old(View()).(families := RevokeAll(old(View()), user))
    {
      hide PartlyRevoked, RevokeAll, Revoke;
      ghost var before := View();
      var locked := Ascending(ActiveFamilies(View(), user));
      StartRevoking(before.families, now);
      for i := 0 to |locked|
        invariant View() == before.(families := families) && families.Keys == before.families.Keys
        invariant PartlyRevoked(before.families, families, locked[..i], now)
      {
        var f := locked[i];
        assert f in locked && locked[..i + 1] == locked[..i] + [f];
        RevokeNext(before.families, families, locked[..i], f, now);
        families := families[f := Revoke(families[f], now)];
      }
      assert locked[..|locked|] == locked;
      RevokedOneByOne(before, user, locked, families);
    }

    method RevokeResets(user: Id)
      modifies this
      ensures View() == old(View()).(challenges := RevokeAllChallenges(old(View()), user))
    {
      hide PartlyClosed, RevokeAllChallenges, RevokeChallenge;
      ghost var before := View();
      var locked := Ascending(ActiveChallenges(View(), user));
      StartClosing(before.challenges, now);
      for i := 0 to |locked|
        invariant View() == before.(challenges := challenges) && challenges.Keys == before.challenges.Keys
        invariant PartlyClosed(before.challenges, challenges, locked[..i], now)
      {
        var c := locked[i];
        assert c in locked && locked[..i + 1] == locked[..i] + [c];
        CloseNext(before.challenges, challenges, locked[..i], c, now);
        challenges := challenges[c := RevokeChallenge(challenges[c], now)];
      }
      assert locked[..|locked|] == locked;
      ClosedOneByOne(before, user, locked, challenges);
    }

    /** Up to four generated tokens are tried; a digest collision undoes only that attempt. */
    method AddToken(family: Id, token: Id, candidates: seq<Digest>) returns (ok: bool)
      requires token !in tokens
      modifies this
      ensures ok <==> FirstFree(old(tokens), Attempts(candidates)).Some?
      ensures View() == if ok
                then old(View()).(tokens := old(tokens)[token :=
                       Token(family, FirstFree(old(tokens), Attempts(candidates)).value, now, None, None)])
                else old(View())
    {
      var generated := Attempts(candidates);
      for i := 0 to |generated|
        invariant View() == old(View())
        invariant FirstFree(tokens, generated) == FirstFree(tokens, generated[i..])
      {
        if !DigestTaken(tokens, generated[i]) {
          tokens := tokens[token := Token(family, generated[i], now, None, None)];
          return true;
        }
        assert generated[i..][1..] == generated[i + 1..];
      }
      return false;
    }

    // ---------------------------------------------------------------- sessions

    method LoginTx(user: Id, verified: Hash, minted: Minted) returns (outcome: Outcome)
      modifies this
      ensures Tx(View(), outcome) == Login(old(View()), user, verified, minted)
    {
      var saved := View();
      if user !in users || !users[user].active || users[user].hash != verified { return Refused(InvalidCredentials); }
      if minted.family in families || minted.token in tokens { return Refused(Unavailable); }
      RevokeFamilies(user);
      families := families[minted.family := Family(user, true, now, now + FAMILY_LIFE, None)];
      var ok := AddToken(minted.family, minted.token, minted.candidates);
      if !ok {
        Rollback(saved);
        return Refused(OpaqueTokenCollision);
      }
      return LoggedIn(user, minted.family, minted.token, verified);
    }

    method RefreshTx(target: Target, d: Digest, replacement: Id, candidates: seq<Digest>) returns (outcome: Outcome)
      modifies this
      ensures Tx(View(), outcome) == Refresh(old(View()), target, d, replacement, candidates)
    {
      if target.user !in users || !users[target.user].active { return Refused(InvalidSession); }
      if !Locked(View(), target, d) { return Refused(InvalidSession); }
      var family, stored := families[target.family], tokens[target.token];
      if !family.active || now >= family.expiresAt { return Refused(InvalidSession); }
      if stored.usedAt.Some? {
        if now <= stored.usedAt.value + GRACE { return Refused(RefreshConflict); }
        // The revocation commits although the request is refused.
        families := families[target.family := family.(active := false, revokedAt := Some(now))];
        return ReuseRevoked(target.family, target.token);
      }
      if replacement in tokens { return Refused(Unavailable); }
      var ok := AddToken(target.family, replacement, candidates);
      if !ok { return Refused(OpaqueTokenCollision); }
      tokens := tokens[target.token := stored.(usedAt := Some(now), replacedBy := Some(replacement))];
      return Rotated(target.family, target.token, replacement);
    }

    method LogoutTx(target: Target, d: Digest) returns (outcome: Outcome)
      modifies this
      ensures Tx(View(), outcome) == Logout(old(View()), target, d)
    {
      if target.user !in users || !Locked(View(), target, d) { return Ignored; }
      var family := families[target.family];
      if family.active && now < family.expiresAt && tokens[target.token].usedAt.None? {
        families := families[target.family := family.(active := false, revokedAt := Some(now))];
        return SignedOut(target.family, target.token);
      }
      return Ignored;
    }

    // --------------------------------------------------------------- passwords

    method ChangePasswordTx(target: Target, d: Digest, verified: Hash, hash: Hash, minted: Minted)
      returns (outcome: Outcome)
      modifies this
      ensures Tx(View(), outcome) == ChangePassword(old(View()), target, d, verified, hash, minted)
    {
      hide FirstFree, Attempts;
      var saved := View();
      var user := target.user;
      if user !in users || !users[user].active || users[user].hash != verified { return Refused(InvalidSession); }
      if !Live(View(), target, d) { return Refused(InvalidSession); }
      if minted.family in families || minted.token in tokens { return Refused(Unavailable); }
      users, hashes := users[user := users[user].(hash := hash)], hashes + {hash};
      RevokeFamilies(user);
      families := families[minted.family := Family(user, true, now, now + FAMILY_LIFE, None)];
      var ok := AddToken(minted.family, minted.token, minted.candidates);
      if !ok {
        Rollback(saved);
        return Refused(OpaqueTokenCollision);
      }
      RevokeResets(user);
      return PasswordChanged(user, target.family, target.token, verified, hash);
    }

    method CompleteResetTx(target: MailTarget, d: Digest, verified: Hash, hash: Hash) returns (outcome: Outcome)
      modifies this
      ensures Tx(View(), outcome) == CompleteReset(old(View()), target, d, verified, hash)
    {
      var user := target.owner;
      if user !in users || !users[user].active || users[user].hash != verified { return Refused(InvalidResetToken); }
      if !ResetUsable(View(), target, d) { return Refused(InvalidResetToken); }
      users, hashes := users[user := users[user].(hash := hash)], hashes + {hash};
      RevokeFamilies(user);
      resetTokens := resetTokens[target.token := resetTokens[target.token].(usedAt := Some(now))];
      challenges := challenges[target.challenge :=
        challenges[target.challenge].(status := Completed, completedAt := Some(now))];
      return PasswordReset(user, target.challenge, target.token, verified, hash);
    }

    method ChangeStatusTx(user: Id, active: bool) returns (outcome: Outcome)
      modifies this
      ensures Tx(View(), outcome) == ChangeStatus(old(View()), user, active)
    {
      if user !in users { return Refused(UserNotFound); }
      if users[user].active == active { return Ignored; }
      if !active {
        RevokeFamilies(user);
        RevokeResets(user);
      }
      users := users[user := users[user].(active := active)];
      return StatusChanged(user, active);
    }

    /** As `AddToken`, for a mailed reset token. */
    method AddResetToken(challenge: Id, token: Id, candidates: seq<Digest>) returns (ok: bool)
      requires token !in resetTokens
      modifies this
      ensures ok <==> FirstFreeMail(old(resetTokens), Attempts(candidates)).Some?
      ensures View() == if ok
                then old(View()).(resetTokens := old(resetTokens)[token :=
                       MailToken(challenge, FirstFreeMail(old(resetTokens), Attempts(candidates)).value, now, None)])
                else old(View())
    {
      var generated := Attempts(candidates);
      for i := 0 to |generated|
        invariant View() == old(View())
        invariant FirstFreeMail(resetTokens, generated) == FirstFreeMail(resetTokens, generated[i..])
      {
        if !MailDigestTaken(resetTokens, generated[i]) {
          resetTokens := resetTokens[token := MailToken(challenge, generated[i], now, None)];
          return true;
        }
        assert generated[i..][1..] == generated[i + 1..];
      }
      return false;
    }

    /** Finds, closes or creates the user's challenge, row by row. */
    method OpenResetTx(user: Id, challenge: Id) returns (owner: Option<Id>)
      modifies this
      ensures owner.Some? <==> OpenReset(old(View()), user, challenge).Some?
      ensures owner.Some? ==> owner.value == OpenReset(old(View()), user, challenge).value.1
      ensures owner.Some? ==> View() == old(View()).(challenges := OpenReset(old(View()), user, challenge).value.0)
    {
      var active := ActiveChallenges(View(), user);
      if active != {} {
        var open := Least(active);
        if now < challenges[open].expiresAt { return Some(open); }
        if challenge in challenges { return None; }
        challenges := challenges[open := challenges[open].(status := Expired)];
      } else if challenge in challenges {
        return None;
      }
      challenges := challenges[challenge := Challenge(user, Active, now, now + RESET_LIFE, None, None)];
      return Some(challenge);
    }

    method RequestResetTx(user: Id, email: Email, challenge: Id, token: Id, candidates: seq<Digest>)
      returns (outcome: Outcome)
      modifies this
      ensures Tx(View(), outcome) == RequestReset(old(View()), user, email, challenge, token, candidates)
    {
      hide FirstFreeMail, OpenReset, Attempts;
      var saved := View();
      if user !in users || !users[user].active || users[user].email != email { return Ignored; }
      var owner := OpenResetTx(user, challenge);
      if owner.None? || token in resetTokens {
        Rollback(saved);
        return Refused(Unavailable);
      }
      var ok := AddResetToken(owner.value, token, candidates);
      if !ok {
        Rollback(saved);
        return Refused(OpaqueTokenCollision);
      }
      return ResetIssued(owner.value, token);
    }

    // ----------------------------------------------------------- registrations

    method AddRegistrationToken(challenge: Id, token: Id, candidates: seq<Digest>) returns (ok: bool)
      requires token !in registrationTokens
      modifies this
      ensures ok <==> FirstFreeMail(old(registrationTokens), Attempts(candidates)).Some?
      ensures View() == if ok
                then old(View()).(registrationTokens := old(registrationTokens)[token :=
                       MailToken(challenge, FirstFreeMail(old(registrationTokens), Attempts(candidates)).value,
                                 now, None)])
                else old(View())
    {
      var generated := Attempts(candidates);
      for i := 0 to |generated|
        invariant View() == old(View())
        invariant FirstFreeMail(registrationTokens, generated) == FirstFreeMail(registrationTokens, generated[i..])
      {
        if !MailDigestTaken(registrationTokens, generated[i]) {
          registrationTokens := registrationTokens[token := MailToken(challenge, generated[i], now, None)];
          return true;
        }
        assert generated[i..][1..] == generated[i + 1..];
      }
      return false;
    }

    method OpenRegistrationTx(email: Email, challenge: Id) returns (owner: Option<Id>)
      modifies this
      ensures owner.Some? <==> OpenRegistration(old(View()), email, challenge).Some?
      ensures owner.Some? ==> owner.value == OpenRegistration(old(View()), email, challenge).value.1
      ensures owner.Some? ==>
        View() == old(View()).(registrations := OpenRegistration(old(View()), email, challenge).value.0)
    {
      var active := ActiveRegistrations(View(), email);
      if active != {} {
        var open := Least(active);
        if now < registrations[open].expiresAt { return Some(open); }
        if challenge in registrations { return None; }
        registrations := registrations[open := registrations[open].(status := Expired)];
      } else if challenge in registrations {
        return None;
      }
      registrations := registrations[challenge := Registration(email, Active, now, now + REGISTRATION_LIFE, None)];
      return Some(challenge);
    }

    method RequestRegistrationTx(email: Email, allowed: bool, challenge: Id, token: Id, candidates: seq<Digest>)
      returns (outcome: Outcome)
      modifies this
      ensures Tx(View(), outcome) == RequestRegistration(old(View()), email, allowed, challenge, token, candidates)
    {
      hide FirstFreeMail, OpenRegistration, EmailTaken, Attempts;
      var saved := View();
      if !allowed { return Refused(DomainNotAllowed); }
      if EmailTaken(View(), email) { return Ignored; }
      var owner := OpenRegistrationTx(email, challenge);
      if owner.None? || token in registrationTokens {
        Rollback(saved);
        return Refused(Unavailable);
      }
      var ok := AddRegistrationToken(owner.value, token, candidates);
      if !ok {
        Rollback(saved);
        return Refused(OpaqueTokenCollision);
      }
      return RegistrationIssued(owner.value, token);
    }

    method CompleteRegistrationTx(
      target: MailTarget, d: Digest, allowed: bool, user: Id, hash: Hash, minted: Minted) returns (outcome: Outcome)
      modifies this
      ensures Tx(View(), outcome) == CompleteRegistration(old(View()), target, d, allowed, user, hash, minted)
    {
      hide FirstFree, EmailTaken, Attempts;
      var saved := View();
      if !RegistrationUsable(View(), target, d) { return Refused(InvalidRegistrationToken); }
      if !allowed { return Refused(DomainNotAllowed); }
      if EmailTaken(View(), target.owner) { return Refused(InvalidRegistrationToken); }
      if user in users || minted.family in families || minted.token in tokens { return Refused(Unavailable); }
      users, hashes := users[user := User(target.owner, hash, true)], hashes + {hash};
      families := families[minted.family := Family(user, true, now, now + FAMILY_LIFE, None)];
      var ok := AddToken(minted.family, minted.token, minted.candidates);
      if !ok {
        Rollback(saved);
        return Refused(OpaqueTokenCollision);
      }
      registrationTokens := registrationTokens[target.token := registrationTokens[target.token].(usedAt := Some(now))];
      registrations := registrations[target.challenge :=
        registrations[target.challenge].(status := Completed, completedAt := Some(now))];
      return Registered(user, target.challenge, target.token);
    }
  }
}
