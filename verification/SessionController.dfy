/**
 One tab's controller as it runs: its fields and the stored marker are updated in place
 between awaits. Every method is proved against the move the tab protocol takes.
 */
module SessionController {
  import opened Wrappers
  import opened Tabs

  /** The storage entry all tabs share. */
  class SessionState {
    var stored: Option<Mark>

    constructor ()
      ensures stored == None
    {
      stored := None;
    }

    /** `id` is the random identifier the browser supplies. */
    method Publish(kind: Kind, id: MarkId) returns (change: Mark)
      modifies this
      ensures change == Mark(id, kind) && stored == Some(change)
    {
      change := Mark(id, kind);
      stored := Some(change);
    }
  }

  class Controller {
    const state: SessionState
    var credential: Option<SignIn>
    var observed: bool
    var marker: Option<Mark>
    var restoreNeeded: bool

    function View(): Tab
      reads this
    {
      Tab(credential, marker, observed, restoreNeeded)
    }

    constructor (shared: SessionState)
      ensures state == shared && View() == OPENED
    {
      state := shared;
      credential, observed, marker, restoreNeeded := None, false, None, false;
    }

    method Clear()
      modifies this
      ensures View() == Cleared(old(View()))
    {
      credential := None;
    }

    method Observe() returns (changed: bool)
      modifies this
      ensures changed == Changed(old(View()), state.stored)
      ensures View() == Observed(old(View()), state.stored)
    {
      var current := state.stored;
      changed := observed && Id(current) != Id(marker);
      marker := current;
      observed := true;
      if changed {
        Clear();
        restoreNeeded := IsSignedIn(current);
      }
    }

    method Publish(kind: Kind, id: MarkId)
      modifies this, state
      ensures View() == Published(old(View()), Mark(id, kind)) && state.stored == Some(Mark(id, kind))
    {
      var change := state.Publish(kind, id);
      marker := Some(change);
      observed := true;
      restoreNeeded := false;
      Clear();
    }

    method Remember(grant: SignIn)
      modifies this
      ensures View() == Remembered(old(View()), grant)
    {
      credential := Some(grant);
    }

    /** What a public operation does before it waits for the lock. */
    method Submit(t: TabId, action: Action) returns (queued: Option<Op>)
      modifies this
      ensures (View(), queued) == Submitted(old(View()), t, state.stored, action)
    {
      if action == Initialize { return Some(Op(t, action, Any, Waiting)); }
      var changed := Observe();
      if action == Synchronize {
        if !restoreNeeded || !IsSignedIn(marker) { return None; }
        return Some(Op(t, action, Any, Waiting));
      }
      if changed { return None; }
      return Some(Op(t, action, Exactly(Id(marker)), Waiting));
    }

    /** The request sent, refreshing first when the credential is missing or expired. */
    method Authorized(expired: bool, goal: Goal) returns (call: Call)
      requires goal != ThenProfile
      ensures call == WithCredential(View(), expired, goal)
    {
      if credential.None? || expired { return RefreshCall(false, goal); }
      return if goal == ThenMe then MeCall(credential.value) else ChangeCall(credential.value);
    }

    /** From the moment the lock is granted to the first request. */
    method Enter(op: Op, hasCsrf: bool, expired: bool) returns (phase: Phase)
      modifies this
      ensures Move(View(), None, phase) == Entered(old(View()), state.stored, op, hasCsrf, expired)
    {
      var _ := Observe();
      if op.expected.Exactly? && op.expected.id != Id(marker) { return Finished; }
      match op.action {
        case Initialize =>
          if !hasCsrf { Clear(); return Finished; }
          return Sent(RefreshCall(false, ThenProfile));
        case Synchronize =>
          if !IsSignedIn(marker) { return Finished; }
          return Sent(RefreshCall(false, ThenProfile));
        case LogIn => return Sent(LoginCall);
        case Register => return Sent(RegisterCall);
        case LogOut => return Sent(LogoutCall);
        case ResetPassword => return Sent(ResetCall);
        case LoadProfile => var call := Authorized(expired, ThenMe); return Sent(call);
        case ChangePassword => var call := Authorized(expired, ThenChange); return Sent(call);
      }
    }

    /** From an answer to the next await; a publication stores its marker before anything else. */
    method Resume(call: Call, reply: Reply, id: MarkId) returns (phase: Phase)
      modifies this, state
      ensures var m := Continued(old(View()), call, reply, id);
        View() == m.tab && phase == m.phase
        && state.stored == if m.stored.Some? then m.stored else old(state.stored)
    {
      match reply {
        case Granted(grant) =>
          if call.RefreshCall? { Remember(grant); return Running(call.goal); }
          Publish(SignedIn, id);
          Remember(grant);
          return Running(ThenProfile);
        case Renewed(_) => Publish(SignedIn, id); return Sent(RefreshCall(false, ThenProfile));
        case Succeeded =>
          if call.MeCall? { restoreNeeded := false; } else { Publish(SignedOut, id); }
          return Finished;
        case InvalidSession => Publish(SignedOut, id); return Finished;
        case Conflict =>
          if call.RefreshCall? && !call.retried { return Sent(RefreshCall(true, call.goal)); }
          return Finished;
        case Failed => return Finished;
      }
    }

    /** The code after a refresh, up to the next request. */
    method Proceed(goal: Goal, expired: bool) returns (phase: Phase)
      ensures Move(View(), None, phase) == Proceeded(View(), goal, expired)
    {
      match goal {
        case ThenProfile => var call := Authorized(expired, ThenMe); return Sent(call);
        case ThenMe => return if credential.Some? then Sent(MeCall(credential.value)) else Finished;
        case ThenChange => return if credential.Some? then Sent(ChangeCall(credential.value)) else Finished;
      }
    }
  }
}
