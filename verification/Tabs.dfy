/**
 Browser tabs that share cookies, one stored marker and one exclusive lock. Each tab
 keeps its own credential and the marker it observed last. Everything a tab does between
 two awaits is one step; the steps of all tabs and of all queued operations interleave.
 A step that is not enabled leaves the system as it is.
 */
module Tabs {
  import opened Wrappers

  type MarkId = nat
  type SignIn = nat
  type TabId = nat
  type OpId = nat

  datatype Kind = SignedIn | SignedOut

  datatype Mark = Mark(id: MarkId, kind: Kind)

  function Id(m: Option<Mark>): Option<MarkId> { if m.Some? then Some(m.value.id) else None }

  predicate IsSignedIn(m: Option<Mark>) { m.Some? && m.value.kind == SignedIn }

  /** The controller fields that decide credentials; a credential is known by its sign-in. */
  datatype Tab = Tab(credential: Option<SignIn>, marker: Option<Mark>, observed: bool, restoreNeeded: bool)

  const OPENED := Tab(None, None, false, false)

  function Cleared(tab: Tab): Tab { tab.(credential := None) }

  predicate Changed(tab: Tab, current: Option<Mark>) { tab.observed && Id(current) != Id(tab.marker) }

  function Observed(tab: Tab, current: Option<Mark>): Tab {
    var seen := tab.(marker := current, observed := true);
    if Changed(tab, current) then Cleared(seen).(restoreNeeded := IsSignedIn(current)) else seen
  }

  function Published(tab: Tab, m: Mark): Tab {
    Cleared(tab.(marker := Some(m), observed := true, restoreNeeded := false))
  }

  function Remembered(tab: Tab, s: SignIn): Tab { tab.(credential := Some(s)) }

  datatype Action =
    | Initialize | Synchronize | LogIn | Register | LogOut | ResetPassword | LoadProfile | ChangePassword

  /** What follows a refresh: the profile check, the profile call, or the password call. */
  datatype Goal = ThenProfile | ThenMe | ThenChange

  datatype Call =
    | RefreshCall(retried: bool, goal: Goal)
    | LoginCall | RegisterCall | LogoutCall | ResetCall
    | ChangeCall(bearer: SignIn)
    | MeCall(bearer: SignIn)

  datatype Reply =
    | Granted(signIn: SignIn)   // a grant, with cookies of that sign-in
    | Renewed(signIn: SignIn)   // no body, cookies of a new sign-in
    | Succeeded
    | InvalidSession
    | Conflict
    | Failed                    // any other error, or no answer at all

  datatype Phase =
    | Waiting
    | Sent(call: Call)
    | Answered(call: Call, reply: Reply)
    | Running(goal: Goal)
    | Finished

  datatype Expected = Any | Exactly(id: Option<MarkId>)

  datatype Op = Op(tab: TabId, action: Action, expected: Expected, phase: Phase)

  datatype Sys = Sys(
    marker: Option<Mark>,
    published: seq<MarkId>,     // every marker ever stored, oldest first
    cookies: Option<SignIn>,
    signIns: set<SignIn>,       // every sign-in ever granted
    holder: Option<OpId>,       // the operation inside the lock
    tabs: map<TabId, Tab>,
    ops: map<OpId, Op>)

  // ------------------------------------------------------------ the server's answers

  predicate CreatesSession(call: Call) { call.LoginCall? || call.RegisterCall? }

  predicate EndsSession(call: Call) { call.LogoutCall? || call.ResetCall? }

  predicate Possible(s: Sys, call: Call, reply: Reply) {
    match reply
    case Granted(x) => (CreatesSession(call) && x !in s.signIns) || (call.RefreshCall? && s.cookies == Some(x))
    case Renewed(x) => call.ChangeCall? && x !in s.signIns
    case Succeeded => EndsSession(call) || call.MeCall?
    case InvalidSession => call.RefreshCall? || call.ChangeCall?
    case Conflict => call.RefreshCall?
    case Failed => true
  }

  /** The replies whose headers replace or expire the shared cookies. */
  predicate MovesCookies(call: Call, reply: Reply) {
    (reply.Granted? && CreatesSession(call)) || reply.Renewed? || reply.InvalidSession?
    || (reply.Succeeded? && EndsSession(call))
  }

  function CookiesAfter(cookies: Option<SignIn>, call: Call, reply: Reply): Option<SignIn> {
    if !MovesCookies(call, reply) then cookies
    else if reply.Granted? || reply.Renewed? then Some(reply.signIn)
    else None
  }

  // ------------------------------------------------------------ one tab's next move

  /** A tab after a move, the marker it stored, if any, and where its operation stands. */
  datatype Move = Move(tab: Tab, stored: Option<Mark>, phase: Phase)

  /** Refresh first when there is no credential or it has expired. */
  function WithCredential(tab: Tab, expired: bool, goal: Goal): (call: Call)
    requires goal != ThenProfile
  {
    if tab.credential.None? || expired then RefreshCall(false, goal)
    else if goal == ThenMe then MeCall(tab.credential.value)
    else ChangeCall(tab.credential.value)
  }

  /** The operation's own code, from the moment the lock is held and the marker accepted. */
  function Started(tab: Tab, action: Action, hasCsrf: bool, expired: bool): Move {
    match action
    case Initialize =>
      if hasCsrf then Move(tab, None, Sent(RefreshCall(false, ThenProfile))) else Move(Cleared(tab), None, Finished)
    case Synchronize =>
      Move(tab, None, if IsSignedIn(tab.marker) then Sent(RefreshCall(false, ThenProfile)) else Finished)
    case LogIn => Move(tab, None, Sent(LoginCall))
    case Register => Move(tab, None, Sent(RegisterCall))
    case LogOut => Move(tab, None, Sent(LogoutCall))
    case ResetPassword => Move(tab, None, Sent(ResetCall))
    case LoadProfile => Move(tab, None, Sent(WithCredential(tab, expired, ThenMe)))
    case ChangePassword => Move(tab, None, Sent(WithCredential(tab, expired, ThenChange)))
  }

  function Entered(tab: Tab, current: Option<Mark>, op: Op, hasCsrf: bool, expired: bool): Move {
    var seen := Observed(tab, current);
    if op.expected.Exactly? && op.expected.id != Id(current) then Move(seen, None, Finished)
    else Started(seen, op.action, hasCsrf, expired)
  }

  /** What follows an answer; `id` is the identifier a publication would use. */
  function Continued(tab: Tab, call: Call, reply: Reply, id: MarkId): Move {
    match reply
    case Granted(x) =>
      if call.RefreshCall? then Move(Remembered(tab, x), None, Running(call.goal))
      else Move(Remembered(Published(tab, Mark(id, SignedIn)), x), Some(Mark(id, SignedIn)), Running(ThenProfile))
    case Renewed(_) =>
      Move(Published(tab, Mark(id, SignedIn)), Some(Mark(id, SignedIn)), Sent(RefreshCall(false, ThenProfile)))
    case Succeeded =>
      if call.MeCall? then Move(tab.(restoreNeeded := false), None, Finished)
      else Move(Published(tab, Mark(id, SignedOut)), Some(Mark(id, SignedOut)), Finished)
    case InvalidSession =>
      Move(Published(tab, Mark(id, SignedOut)), Some(Mark(id, SignedOut)), Finished)
    case Conflict =>
      Move(tab, None, if call.RefreshCall? && !call.retried then Sent(RefreshCall(true, call.goal)) else Finished)
    case Failed => Move(tab, None, Finished)
  }

  /**
   The code after a refresh. Another task of the tab may have dropped the credential
   meanwhile; the profile check then refreshes again, the two calls fail.
   */
  function Proceeded(tab: Tab, goal: Goal, expired: bool): Move {
    match goal
    case ThenProfile => Move(tab, None, Sent(WithCredential(tab, expired, ThenMe)))
    case ThenMe => Move(tab, None, if tab.credential.Some? then Sent(MeCall(tab.credential.value)) else Finished)
    case ThenChange =>
      Move(tab, None, if tab.credential.Some? then Sent(ChangeCall(tab.credential.value)) else Finished)
  }

  // ------------------------------------------------------------ the system's steps

  datatype Step =
    | OpenTab(tab: TabId)
    | Submit(op: OpId, tab: TabId, action: Action)
    | Enter(op: OpId, hasCsrf: bool, expired: bool)
    | Abandon(op: OpId)                  // storage or locks turned out unavailable at entry
    | Answer(op: OpId, reply: Reply)
    | Resume(op: OpId, id: MarkId)
    | Proceed(op: OpId, expired: bool)
    | DropCredential(tab: TabId)         // a late failure handler

  predicate Locked(action: Action) { action != Initialize && action != Synchronize }

  /** The tab and the queue entry, if any, after an action was submitted. */
  function Submitted(tab: Tab, t: TabId, current: Option<Mark>, action: Action): (Tab, Option<Op>) {
    if action == Initialize then (tab, Some(Op(t, action, Any, Waiting)))
    else
      var seen := Observed(tab, current);
      if action == Synchronize then
        (seen, if seen.restoreNeeded && IsSignedIn(current) then Some(Op(t, action, Any, Waiting)) else None)
      else (seen, if Changed(tab, current) then None else Some(Op(t, action, Exactly(Id(current)), Waiting)))
  }

  function Put(s: Sys, o: OpId, m: Move): Sys
    requires o in s.ops
  {
    s.(tabs := s.tabs[s.ops[o].tab := m.tab],
       ops := s.ops[o := s.ops[o].(phase := m.phase)],
       holder := if m.phase.Finished? then None else Some(o),
       marker := if m.stored.Some? then m.stored else s.marker,
       published := if m.stored.Some? then s.published + [m.stored.value.id] else s.published)
  }

  predicate Known(s: Sys, o: OpId) { o in s.ops && s.ops[o].tab in s.tabs }

  function Exec(s: Sys, step: Step): Sys {
    match step
    case OpenTab(t) => if t in s.tabs then s else s.(tabs := s.tabs[t := OPENED])
    case Submit(o, t, action) =>
      if t !in s.tabs || o in s.ops then s
      else
        var (tab, queued) := Submitted(s.tabs[t], t, s.marker, action);
        s.(tabs := s.tabs[t := tab], ops := if queued.Some? then s.ops[o := queued.value] else s.ops)
    case Enter(o, hasCsrf, expired) =>
      if Known(s, o) && s.ops[o].phase.Waiting? && s.holder.None?
      then Put(s, o, Entered(s.tabs[s.ops[o].tab], s.marker, s.ops[o], hasCsrf, expired)) else s
    case Abandon(o) =>
      if Known(s, o) && s.ops[o].phase.Waiting? && s.holder.None?
      then Put(s, o, Move(Cleared(s.tabs[s.ops[o].tab]), None, Finished)) else s
    case Answer(o, reply) =>
      if Known(s, o) && s.ops[o].phase.Sent? && Possible(s, s.ops[o].phase.call, reply) then
        var call := s.ops[o].phase.call;
        s.(cookies := CookiesAfter(s.cookies, call, reply),
           signIns := if reply.Granted? || reply.Renewed? then s.signIns + {reply.signIn} else s.signIns,
           ops := s.ops[o := s.ops[o].(phase := Answered(call, reply))])
      else s
    case Resume(o, id) =>
      if Known(s, o) && s.ops[o].phase.Answered? && id !in s.published
      then Put(s, o, Continued(s.tabs[s.ops[o].tab], s.ops[o].phase.call, s.ops[o].phase.reply, id)) else s
    case Proceed(o, expired) =>
      if Known(s, o) && s.ops[o].phase.Running?
      then Put(s, o, Proceeded(s.tabs[s.ops[o].tab], s.ops[o].phase.goal, expired)) else s
    case DropCredential(t) => if t in s.tabs then s.(tabs := s.tabs[t := Cleared(s.tabs[t])]) else s
  }

  function After(s: Sys, steps: seq<Step>): Sys {
    if steps == [] then s else Exec(After(s, steps[..|steps| - 1]), steps[|steps| - 1])
  }

  // ------------------------------------------------------------ what is claimed

  /** The stored marker is the last one published, and none was published twice. */
  predicate History(s: Sys) {
    && (forall i, j :: 0 <= i < j < |s.published| ==> s.published[i] != s.published[j])
    && Id(s.marker) == if s.published == [] then None else Some(s.published[|s.published| - 1])
  }

  /** No tab is open; storage and cookies may hold anything an earlier visit left. */
  predicate Init(s: Sys) {
    && s.tabs == map[] && s.ops == map[] && s.holder.None? && History(s)
    && (s.cookies.Some? ==> s.cookies.value in s.signIns)
  }

  /** The tab's recorded marker is the stored one and it holds a credential. */
  predicate HoldsCurrent(s: Sys, t: TabId) {
    t in s.tabs && Id(s.tabs[t].marker) == Id(s.marker) && s.tabs[t].credential.Some?
  }

  /** Such a credential belongs to the sign-in that owns the shared cookies. */
  ghost predicate Agreement(s: Sys) {
    forall t :: HoldsCurrent(s, t) ==> s.cookies == s.tabs[t].credential
  }

  /** A reply has moved the cookies and the tab that received it has not yet published. */
  predicate Window(s: Sys) {
    && s.holder.Some? && s.holder.value in s.ops
    && var phase := s.ops[s.holder.value].phase;
       phase.Answered? && MovesCookies(phase.call, phase.reply)
  }
}
