/** Which request each action sends, what every answer leaves behind, and that no request is repeated. */
module TabOutcomes {
  import opened Wrappers
  import opened Tabs
  import opened TabAgreement

  // ------------------------------------------------------------ calls fit actions

  /** The requests an action may send. */
  predicate CallFits(action: Action, call: Call) {
    match action
    case Initialize => call.MeCall? || (call.RefreshCall? && call.goal != ThenChange)
    case Synchronize => call.MeCall? || (call.RefreshCall? && call.goal != ThenChange)
    case LogIn => call.LoginCall? || call.MeCall? || (call.RefreshCall? && call.goal == ThenMe)
    case Register => call.RegisterCall? || call.MeCall? || (call.RefreshCall? && call.goal == ThenMe)
    case LogOut => call.LogoutCall?
    case ResetPassword => call.ResetCall?
    case LoadProfile => call.MeCall? || (call.RefreshCall? && call.goal == ThenMe)
    case ChangePassword => call.ChangeCall? || call.MeCall? || call.RefreshCall?
  }

  predicate GoalFits(action: Action, goal: Goal) {
    match goal
    case ThenMe => action != LogOut && action != ResetPassword
    case ThenProfile =>
      action == Initialize || action == Synchronize || action == LogIn || action == Register || action == ChangePassword
    case ThenChange => action == ChangePassword
  }

  /** The answers a request can get. */
  predicate ReplyFits(call: Call, reply: Reply) {
    match reply
    case Granted(_) => CreatesSession(call) || call.RefreshCall?
    case Renewed(_) => call.ChangeCall?
    case Succeeded => EndsSession(call) || call.MeCall?
    case InvalidSession => call.RefreshCall? || call.ChangeCall?
    case Conflict => call.RefreshCall?
    case Failed => true
  }

  predicate PhaseFitsAction(action: Action, phase: Phase) {
    match phase
    case Sent(call) => CallFits(action, call)
    case Answered(call, reply) => CallFits(action, call) && ReplyFits(call, reply)
    case Running(goal) => GoalFits(action, goal)
    case _ => true
  }

  predicate AllFit(s: Sys) { forall o :: o in s.ops ==> PhaseFitsAction(s.ops[o].action, s.ops[o].phase) }

  lemma EntryFits(tab: Tab, current: Option<Mark>, op: Op, hasCsrf: bool, expired: bool)
    ensures PhaseFitsAction(op.action, Entered(tab, current, op, hasCsrf, expired).phase)
  {
    hide Observed;
  }

  lemma ContinuationFits(tab: Tab, action: Action, call: Call, reply: Reply, id: MarkId)
    requires CallFits(action, call) && ReplyFits(call, reply)
    ensures PhaseFitsAction(action, Continued(tab, call, reply, id).phase)
  {
  }

  lemma ProceedingFits(tab: Tab, action: Action, goal: Goal, expired: bool)
    requires GoalFits(action, goal)
    ensures PhaseFitsAction(action, Proceeded(tab, goal, expired).phase)
  {
  }

  lemma ExecKeepsFit(s: Sys, step: Step)
    requires AllFit(s)
    ensures AllFit(Exec(s, step))
  {
    hide Entered, Continued, Proceeded, PhaseFitsAction, Observed, CookiesAfter;
    match step
    case Submit(o, t, action) => WaitingFits(action);
    case Enter(o, hasCsrf, expired) =>
      if Known(s, o) { EntryFits(s.tabs[s.ops[o].tab], s.marker, s.ops[o], hasCsrf, expired); }
    case Abandon(o) => if Known(s, o) { WaitingFits(s.ops[o].action); }
    case Answer(o, reply) =>
      if Known(s, o) && s.ops[o].phase.Sent? && Possible(s, s.ops[o].phase.call, reply) {
        AnswerFits(s, s.ops[o].action, s.ops[o].phase.call, reply);
      }
    case Resume(o, id) =>
      if Known(s, o) && s.ops[o].phase.Answered? {
        AnsweredFits(s.ops[o].action, s.ops[o].phase);
        ContinuationFits(s.tabs[s.ops[o].tab], s.ops[o].action, s.ops[o].phase.call, s.ops[o].phase.reply, id);
      }
    case Proceed(o, expired) =>
      if Known(s, o) && s.ops[o].phase.Running? {
        RunningFits(s.ops[o].action, s.ops[o].phase);
        ProceedingFits(s.tabs[s.ops[o].tab], s.ops[o].action, s.ops[o].phase.goal, expired);
      }
    case _ =>
  }

  lemma WaitingFits(action: Action)
    ensures PhaseFitsAction(action, Waiting) && PhaseFitsAction(action, Finished)
  {
  }

  lemma AnswerFits(s: Sys, action: Action, call: Call, reply: Reply)
    requires PhaseFitsAction(action, Sent(call)) && Possible(s, call, reply)
    ensures PhaseFitsAction(action, Answered(call, reply))
  {
  }

  lemma AnsweredFits(action: Action, phase: Phase)
    requires PhaseFitsAction(action, phase) && phase.Answered?
    ensures CallFits(action, phase.call) && ReplyFits(phase.call, phase.reply)
  {
  }

  lemma RunningFits(action: Action, phase: Phase)
    requires PhaseFitsAction(action, phase) && phase.Running?
    ensures GoalFits(action, phase.goal)
  {
  }

  /** In every reachable state an operation has sent, or holds an answer to, only what its action is for. */
  lemma {:induction false} CallsFitActions(s: Sys, steps: seq<Step>)
    requires Init(s)
    ensures AllFit(After(s, steps))
  {
    hide Exec, PhaseFitsAction;
    if steps != [] {
      CallsFitActions(s, steps[..|steps| - 1]);
      ExecKeepsFit(After(s, steps[..|steps| - 1]), steps[|steps| - 1]);
    }
  }

  // ------------------------------------------------------------ no request is repeated

  /** How far an operation is; later stages have smaller numbers. */
  function Stage(phase: Phase): nat {
    match phase
    case Waiting => 9
    case Sent(call) => CallStage(call)
    case Answered(call, _) => CallStage(call)
    case Running(ThenChange) => 7
    case Running(ThenProfile) => 4
    case Running(ThenMe) => 2
    case Finished => 0
  }

  function CallStage(call: Call): nat {
    match call
    case RefreshCall(_, ThenChange) => 8
    case RefreshCall(_, ThenProfile) => 5
    case RefreshCall(_, ThenMe) => 3
    case MeCall(_) => 1
    case _ => 6
  }

  /** The one request that may follow at the same stage: a refresh tried again after its first conflict. */
  predicate FirstRetry(before: Phase, after: Phase) {
    before.Answered? && before.reply.Conflict? && before.call.RefreshCall? && !before.call.retried
    && after == Sent(RefreshCall(true, before.call.goal))
  }

  lemma ContinuationAdvances(tab: Tab, call: Call, reply: Reply, id: MarkId)
    requires ReplyFits(call, reply)
    ensures var next := Continued(tab, call, reply, id).phase;
      FirstRetry(Answered(call, reply), next) || Stage(next) < CallStage(call)
  {
  }

  lemma ProceedingAdvances(tab: Tab, goal: Goal, expired: bool)
    ensures Stage(Proceeded(tab, goal, expired).phase) < Stage(Running(goal))
  {
  }

  lemma EntryAdvances(tab: Tab, current: Option<Mark>, op: Op, hasCsrf: bool, expired: bool)
    ensures Stage(Entered(tab, current, op, hasCsrf, expired).phase) < 9
  {
    hide Observed;
  }

  /**
   Whenever an operation moves on it comes to a later stage, so it ends, and no login, logout,
   registration, reset or password change of one operation is sent twice; a refresh is tried again once.
   */
  lemma OperationsOnlyAdvance(s: Sys, step: Step, o: OpId)
    requires AllFit(s) && o in s.ops
    ensures var before, after := s.ops[o].phase, Exec(s, step).ops[o].phase;
      after == before || Stage(after) < Stage(before) || FirstRetry(before, after)
      || (before.Sent? && after.Answered? && after.call == before.call)
  {
    hide Entered, Continued, Proceeded, Observed, CookiesAfter, Submitted, CallFits, GoalFits;
    match step
    case Enter(p, hasCsrf, expired) =>
      if Known(s, p) { EntryAdvances(s.tabs[s.ops[p].tab], s.marker, s.ops[p], hasCsrf, expired); }
    case Resume(p, id) =>
      if Known(s, p) && s.ops[p].phase.Answered? {
        ContinuationAdvances(s.tabs[s.ops[p].tab], s.ops[p].phase.call, s.ops[p].phase.reply, id);
      }
    case Proceed(p, expired) =>
      if Known(s, p) && s.ops[p].phase.Running? {
        ProceedingAdvances(s.tabs[s.ops[p].tab], s.ops[p].phase.goal, expired);
      }
    case _ =>
  }

  // ------------------------------------------------------------ what an entry sends

  /** The first request of an action, given the tab's credential and whether it has expired; None if it ends at once. */
  predicate FirstCall(action: Action, credential: Option<SignIn>, expired: bool, hasCsrf: bool, marker: Option<Mark>,
                      phase: Phase)
  {
    match action
    case Initialize => phase == if hasCsrf then Sent(RefreshCall(false, ThenProfile)) else Finished
    case Synchronize => phase == if IsSignedIn(marker) then Sent(RefreshCall(false, ThenProfile)) else Finished
    case LogIn => phase == Sent(LoginCall)
    case Register => phase == Sent(RegisterCall)
    case LogOut => phase == Sent(LogoutCall)
    case ResetPassword => phase == Sent(ResetCall)
    case LoadProfile =>
      if credential.Some? && !expired then phase == Sent(MeCall(credential.value))
      else phase == Sent(RefreshCall(false, ThenMe))
    case ChangePassword =>
      if credential.Some? && !expired then phase == Sent(ChangeCall(credential.value))
      else phase == Sent(RefreshCall(false, ThenChange))
  }

  /**
   An operation that enters the free lock at the marker it was submitted with sends its action's
   first request, a refresh first where the credential is missing or expired; at another marker it
   ends. Either way its tab has observed the marker, and lost its credential if the marker had changed.
   */
  lemma EntrySendsTheFirstCall(s: Sys, o: OpId, hasCsrf: bool, expired: bool)
    requires Inv(s) && Known(s, o) && s.ops[o].phase.Waiting? && s.holder.None?
    ensures var t, op, next := s.ops[o].tab, s.ops[o], Exec(s, Enter(o, hasCsrf, expired));
      var before, after := s.tabs[t], next.tabs[t];
      var noticed := before.observed && Id(before.marker) != Id(s.marker);
      var held := if noticed then None else before.credential;
      var enters := op.expected.Any? || op.expected.id == Id(s.marker);
      && after.observed && after.marker == s.marker
      && after.credential == (if enters && op.action == Initialize && !hasCsrf then None else held)
      && after.restoreNeeded == (if noticed then IsSignedIn(s.marker) else before.restoreNeeded)
      && (enters ==> FirstCall(op.action, held, expired, hasCsrf, s.marker, next.ops[o].phase))
      && (!enters ==> next.ops[o].phase == Finished)
      && next.holder == (if next.ops[o].phase.Finished? then None else Some(o))
      && next.marker == s.marker && next.cookies == s.cookies && next.published == s.published
  {
    hide Inv;
  }

  // ------------------------------------------------------------ what an answer leaves

  /** The operation ends: signed out, with nothing in cookies, marker or tab, and the lock is free. */
  predicate SignedOutBy(s: Sys, o: OpId, id: MarkId) {
    && Known(s, o) && s.ops[o].phase == Finished && s.holder.None? && s.cookies.None?
    && s.marker == Some(Mark(id, SignedOut)) && s.tabs[s.ops[o].tab].credential.None?
    && s.tabs[s.ops[o].tab].marker == s.marker && !s.tabs[s.ops[o].tab].restoreNeeded
  }

  /** A logout or reset that succeeded, or a session the server no longer knows, signs out. */
  lemma EndedSessionsSignOut(s: Sys, o: OpId, reply: Reply, id: MarkId)
    requires Inv(s) && AllFit(s) && Known(s, o) && s.ops[o].phase.Sent? && id !in s.published
    requires var call := s.ops[o].phase.call;
      (EndsSession(call) && reply == Succeeded) || ((call.RefreshCall? || call.ChangeCall?) && reply == InvalidSession)
    ensures SignedOutBy(Exec(Exec(s, Answer(o, reply)), Resume(o, id)), o, id)
  {
    hide Inv, AllFit;
  }

  /** Logging out: the request is a logout, and its success leaves nobody signed in. */
  lemma LogOutSignsOut(s: Sys, o: OpId, id: MarkId)
    requires Inv(s) && AllFit(s) && Known(s, o) && s.ops[o].action == LogOut && s.ops[o].phase.Sent?
    requires id !in s.published
    ensures s.ops[o].phase.call == LogoutCall && SignedOutBy(Exec(Exec(s, Answer(o, Succeeded)), Resume(o, id)), o, id)
  {
    assert PhaseFitsAction(LogOut, s.ops[o].phase);
    hide Inv, AllFit;
    EndedSessionsSignOut(s, o, Succeeded, id);
  }

  /** A granted login or registration signs in: cookies, marker and tab agree on the new sign-in. */
  lemma GrantsSignIn(s: Sys, o: OpId, x: SignIn, id: MarkId)
    requires Inv(s) && Known(s, o) && s.ops[o].phase.Sent? && CreatesSession(s.ops[o].phase.call)
    requires x !in s.signIns && id !in s.published
    ensures var r := Exec(Exec(s, Answer(o, Granted(x))), Resume(o, id)); var t := s.ops[o].tab;
      && Known(r, o) && r.ops[o].phase == Running(ThenProfile) && r.cookies == Some(x) && x in r.signIns
      && r.marker == Some(Mark(id, SignedIn)) && r.published == s.published + [id]
      && r.tabs[t] == Tab(Some(x), Some(Mark(id, SignedIn)), true, false)
  {
    hide Inv;
  }

  /** A changed password signs in anew: the old credential is dropped and a refresh fetches the new one. */
  lemma ChangesRenew(s: Sys, o: OpId, x: SignIn, id: MarkId)
    requires Inv(s) && Known(s, o) && s.ops[o].phase.Sent? && s.ops[o].phase.call.ChangeCall?
    requires x !in s.signIns && id !in s.published
    ensures var r := Exec(Exec(s, Answer(o, Renewed(x))), Resume(o, id)); var t := s.ops[o].tab;
      && Known(r, o) && r.ops[o].phase == Sent(RefreshCall(false, ThenProfile)) && r.cookies == Some(x)
      && r.marker == Some(Mark(id, SignedIn)) && r.published == s.published + [id]
      && r.tabs[t] == Tab(None, Some(Mark(id, SignedIn)), true, false)
  {
    hide Inv;
  }

  /** A refresh gives the tab the credential of the cookies' own sign-in and publishes nothing. */
  lemma RefreshesRemember(s: Sys, o: OpId, x: SignIn, id: MarkId)
    requires Inv(s) && Known(s, o) && s.ops[o].phase.Sent? && s.ops[o].phase.call.RefreshCall?
    requires s.cookies == Some(x) && id !in s.published
    ensures var r := Exec(Exec(s, Answer(o, Granted(x))), Resume(o, id)); var t := s.ops[o].tab;
      && Known(r, o) && r.ops[o].phase == Running(s.ops[o].phase.call.goal)
      && r.cookies == s.cookies && r.marker == s.marker && r.published == s.published
      && r.tabs[t] == s.tabs[t].(credential := Some(x))
  {
    hide Inv;
  }

  /** A loaded profile ends the operation and the need to restore; a failure ends it and changes nothing else. */
  lemma ProfileOrFailureEnds(s: Sys, o: OpId, reply: Reply, id: MarkId)
    requires Inv(s) && Known(s, o) && s.ops[o].phase.Sent? && id !in s.published
    requires reply == Failed || (reply == Succeeded && s.ops[o].phase.call.MeCall?)
    ensures var r := Exec(Exec(s, Answer(o, reply)), Resume(o, id)); var t := s.ops[o].tab;
      && Known(r, o) && r.ops[o].phase == Finished && r.holder.None?
      && r.cookies == s.cookies && r.marker == s.marker && r.published == s.published
      && r.tabs[t] == (if reply == Succeeded then s.tabs[t].(restoreNeeded := false) else s.tabs[t])
  {
    hide Inv;
  }

  /** A refresh in conflict is sent once more, and ends the operation the second time; nothing else changes. */
  lemma ConflictsAreRetriedOnce(s: Sys, o: OpId, id: MarkId)
    requires Inv(s) && Known(s, o) && s.ops[o].phase.Sent? && s.ops[o].phase.call.RefreshCall? && id !in s.published
    ensures var call := s.ops[o].phase.call;
      var r := Exec(Exec(s, Answer(o, Conflict)), Resume(o, id));
      && Known(r, o) && r.cookies == s.cookies && r.marker == s.marker && r.tabs[s.ops[o].tab] == s.tabs[s.ops[o].tab]
      && r.ops[o].phase == (if call.retried then Finished else Sent(RefreshCall(true, call.goal)))
  {
    hide Inv;
  }

  /** After a refresh the profile is asked for with the credential, which is refreshed again if it expired or went. */
  lemma ProceedingSends(s: Sys, o: OpId, expired: bool)
    requires Known(s, o) && s.ops[o].phase.Running?
    ensures var held := s.tabs[s.ops[o].tab].credential; var r := Exec(s, Proceed(o, expired));
      && r.ops[o].phase == (match s.ops[o].phase.goal
           case ThenProfile =>
             if held.Some? && !expired then Sent(MeCall(held.value)) else Sent(RefreshCall(false, ThenMe))
           case ThenMe => if held.Some? then Sent(MeCall(held.value)) else Finished
           case ThenChange => if held.Some? then Sent(ChangeCall(held.value)) else Finished)
      && r.tabs == s.tabs && r.cookies == s.cookies && r.marker == s.marker
  {
  }

  // ------------------------------------------------------------ what a submission does

  /** Submitting notices a change made by another tab: the credential is gone, and a sign-in is to be restored. */
  lemma ChangesAreNoticed(s: Sys, o: OpId, t: TabId, action: Action)
    requires t in s.tabs && o !in s.ops && action != Initialize
    ensures var before, next := s.tabs[t], Exec(s, Submit(o, t, action)); var after := next.tabs[t];
      var noticed := before.observed && Id(before.marker) != Id(s.marker);
      && after.observed && after.marker == s.marker
      && after.credential == (if noticed then None else before.credential)
      && after.restoreNeeded == (if noticed then IsSignedIn(s.marker) else before.restoreNeeded)
      && (action == Synchronize ==> (o in next.ops <==> after.restoreNeeded && IsSignedIn(s.marker)))
      && (action != Synchronize ==> (o in next.ops <==> !noticed))
      && var expected := if action == Synchronize then Any else Exactly(Id(s.marker));
         o in next.ops ==> next.ops[o] == Op(t, action, expected, Waiting)
  {
  }

  /** An initialization only queues; it is not bound to a marker. */
  lemma InitializationIsQueued(s: Sys, o: OpId, t: TabId)
    requires t in s.tabs && o !in s.ops
    ensures Exec(s, Submit(o, t, Initialize)).ops == s.ops[o := Op(t, Initialize, Any, Waiting)]
    ensures Exec(s, Submit(o, t, Initialize)).tabs == s.tabs
  {
  }

  predicate IsStepOf(step: Step, o: OpId) {
    (step.Submit? || step.Enter? || step.Abandon? || step.Answer? || step.Resume? || step.Proceed?) && step.op == o
  }

  /** The tab a step works in, if any. */
  function TabOf(s: Sys, step: Step): Option<TabId> {
    match step
    case OpenTab(t) => Some(t)
    case Submit(_, t, _) => Some(t)
    case DropCredential(t) => Some(t)
    case Answer(_, _) => None
    case _ => if step.op in s.ops then Some(s.ops[step.op].tab) else None
  }

  /** A step touches no other tab's fields and no other operation. */
  lemma OthersStay(s: Sys, step: Step)
    ensures var next := Exec(s, step);
      && (forall t :: t in s.tabs && Some(t) != TabOf(s, step) ==> t in next.tabs && next.tabs[t] == s.tabs[t])
      && (forall o :: o in s.ops && !IsStepOf(step, o) ==> o in next.ops && next.ops[o] == s.ops[o])
  {
    hide Entered, Continued, Proceeded, Submitted, Possible, CookiesAfter;
  }

  /** A tab opens with nothing; a late failure or an abandoned entry takes its credential and no more. */
  lemma DroppingOnlyDrops(s: Sys, t: TabId, o: OpId)
    ensures t !in s.tabs ==> Exec(s, OpenTab(t)) == s.(tabs := s.tabs[t := Tab(None, None, false, false)])
    ensures t in s.tabs ==>
      Exec(s, DropCredential(t)) == s.(tabs := s.tabs[t := s.tabs[t].(credential := None)])
    ensures Known(s, o) && s.ops[o].phase.Waiting? && s.holder.None? ==>
      Exec(s, Abandon(o)) == s.(tabs := s.tabs[s.ops[o].tab := s.tabs[s.ops[o].tab].(credential := None)],
                                ops := s.ops[o := s.ops[o].(phase := Finished)])
  {
  }
}
