/** What every step of the tab protocol keeps, and what follows for every run. */
module TabAgreement {
  import opened Wrappers
  import opened Tabs

  predicate InLock(phase: Phase) { phase.Sent? || phase.Answered? || phase.Running? }

  predicate AtCurrent(s: Sys, tab: Tab) { tab.observed && Id(tab.marker) == Id(s.marker) }

  /** At most one operation is past its entry: the one that holds the lock. */
  predicate OneHolder(s: Sys) {
    && (forall o :: o in s.ops ==> s.ops[o].tab in s.tabs && (InLock(s.ops[o].phase) <==> s.holder == Some(o)))
    && (s.holder.Some? ==> s.holder.value in s.ops && AtCurrent(s, s.tabs[s.ops[s.holder.value].tab]))
  }

  predicate TabKnown(s: Sys, tab: Tab) {
    && (!tab.observed ==> tab.credential.None? && tab.marker.None?)
    && (tab.marker.Some? ==> tab.marker.value.id in s.published)
    && (tab.credential.Some? ==> tab.credential.value in s.signIns)
  }

  predicate TabsKnown(s: Sys) {
    && (forall t :: t in s.tabs ==> TabKnown(s, s.tabs[t]))
    && (s.cookies.Some? ==> s.cookies.value in s.signIns)
  }

  /** A call or an answer of the holder fits the cookies. */
  predicate PhaseFits(cookies: Option<SignIn>, phase: Phase) {
    match phase
    case Sent(MeCall(b)) => cookies == Some(b)
    case Sent(ChangeCall(b)) => cookies == Some(b)
    case Answered(call, Granted(x)) => cookies == Some(x) && (CreatesSession(call) || call.RefreshCall?)
    case Answered(call, Renewed(x)) => cookies == Some(x)
    case Answered(call, InvalidSession) => cookies == None
    case Answered(call, Succeeded) => call.MeCall? || (EndsSession(call) && cookies == None)
    case _ => true
  }

  predicate PhasesFit(s: Sys) { forall o :: o in s.ops ==> PhaseFits(s.cookies, s.ops[o].phase) }

  /** Inside the window no credential at the stored marker can be the cookies' own. */
  ghost predicate Disagreement(s: Sys) {
    forall t :: HoldsCurrent(s, t) ==> s.cookies != s.tabs[t].credential
  }

  ghost predicate Inv(s: Sys) {
    && History(s) && OneHolder(s) && TabsKnown(s) && PhasesFit(s)
    && (if Window(s) then Disagreement(s) else Agreement(s))
  }

  lemma InitInv(s: Sys)
    requires Init(s)
    ensures Inv(s)
  {
  }

  // ------------------------------------------------------------ one move of one operation

  /** A move that publishes nothing. */
  predicate QuietMove(s: Sys, m: Move) {
    && m.stored.None? && TabKnown(s, m.tab)
    && (m.tab.credential.Some? && Id(m.tab.marker) == Id(s.marker) ==> m.tab.credential == s.cookies)
    && !m.phase.Waiting? && !m.phase.Answered? && PhaseFits(s.cookies, m.phase)
    && (InLock(m.phase) ==> AtCurrent(s, m.tab))
  }

  /** A move that publishes a marker never used before. */
  predicate LoudMove(s: Sys, m: Move) {
    && m.stored.Some? && m.stored.value.id !in s.published
    && m.tab.observed && m.tab.marker == m.stored
    && (m.tab.credential.Some? ==> m.tab.credential == s.cookies)
    && !m.phase.Waiting? && !m.phase.Answered? && PhaseFits(s.cookies, m.phase)
  }

  predicate MayMove(s: Sys, o: OpId) {
    o in s.ops && s.ops[o].tab in s.tabs && (s.holder.None? || s.holder == Some(o))
  }

  lemma QuietMoveKeeps(s: Sys, o: OpId, m: Move)
    requires Inv(s) && MayMove(s, o) && !Window(s) && QuietMove(s, m)
    ensures Inv(Put(s, o, m)) && !Window(Put(s, o, m))
  {
    var r := Put(s, o, m);
    assert OneHolder(r);
    forall t | HoldsCurrent(r, t) ensures r.cookies == r.tabs[t].credential {
      assert t != s.ops[o].tab ==> HoldsCurrent(s, t);
    }
  }

  lemma LoudMoveKeeps(s: Sys, o: OpId, m: Move)
    requires Inv(s) && MayMove(s, o) && LoudMove(s, m)
    ensures Inv(Put(s, o, m)) && !Window(Put(s, o, m))
  {
    var r := Put(s, o, m);
    assert History(r);
    assert OneHolder(r);
    forall t | HoldsCurrent(r, t) ensures r.cookies == r.tabs[t].credential && t == s.ops[o].tab {
      assert t != s.ops[o].tab ==> TabKnown(s, s.tabs[t]);
    }
  }

  // ------------------------------------------------------------ every step

  /** Observing the stored marker leaves a credential only where it was current already. */
  lemma ObservedKeeps(s: Sys, tab: Tab)
    requires History(s) && TabKnown(s, tab)
    ensures var seen := Observed(tab, s.marker);
      TabKnown(s, seen) && AtCurrent(s, seen)
      && (seen.credential.Some? ==> seen.credential == tab.credential && Id(tab.marker) == Id(s.marker))
  {
  }

  /** A tab replaced by one that knows no more leaves everything else alone. */
  lemma TabKeeps(s: Sys, t: TabId, tab: Tab)
    requires Inv(s) && TabKnown(s, tab)
    requires tab.credential.Some? && Id(tab.marker) == Id(s.marker)
             ==> (HoldsCurrent(s, t) && tab.credential == s.tabs[t].credential)
    requires t in s.tabs ==> AtCurrent(s, tab) || tab == Cleared(s.tabs[t])
    ensures Inv(s.(tabs := s.tabs[t := tab]))
  {
    var r := s.(tabs := s.tabs[t := tab]);
    assert OneHolder(r);
    assert Window(r) == Window(s);
    forall u | HoldsCurrent(r, u) ensures HoldsCurrent(s, u) && r.tabs[u].credential == s.tabs[u].credential {
    }
  }

  lemma QueueKeeps(s: Sys, o: OpId, op: Op)
    requires Inv(s) && o !in s.ops && op.tab in s.tabs && op.phase.Waiting?
    ensures Inv(s.(ops := s.ops[o := op]))
  {
    var r := s.(ops := s.ops[o := op]);
    assert forall t :: HoldsCurrent(r, t) <==> HoldsCurrent(s, t);
  }

  lemma SubmitKeeps(s: Sys, o: OpId, t: TabId, action: Action)
    requires Inv(s)
    ensures Inv(Exec(s, Submit(o, t, action)))
  {
    if t in s.tabs && o !in s.ops && action != Initialize {
      ObservedKeeps(s, s.tabs[t]);
      TabKeeps(s, t, Observed(s.tabs[t], s.marker));
    }
    if t in s.tabs && o !in s.ops {
      var (tab, queued) := Submitted(s.tabs[t], t, s.marker, action);
      var r := s.(tabs := s.tabs[t := tab]);
      assert r.tabs == s.tabs || action != Initialize;
      assert Inv(r);
      if queued.Some? { QueueKeeps(r, o, queued.value); }
    }
  }

  lemma EnterKeeps(s: Sys, o: OpId, hasCsrf: bool, expired: bool)
    requires Inv(s) && Known(s, o) && s.ops[o].phase.Waiting? && s.holder.None?
    ensures Inv(Exec(s, Enter(o, hasCsrf, expired)))
  {
    var t := s.ops[o].tab;
    assert TabKnown(s, s.tabs[t]);
    assert HoldsCurrent(s, t) ==> s.tabs[t].credential == s.cookies;
    EntryIsQuiet(s, s.tabs[t], s.ops[o], hasCsrf, expired);
    hide Inv, Entered, QuietMove;
    QuietMoveKeeps(s, o, Entered(s.tabs[t], s.marker, s.ops[o], hasCsrf, expired));
  }

  lemma EntryIsQuiet(s: Sys, tab: Tab, op: Op, hasCsrf: bool, expired: bool)
    requires History(s) && TabKnown(s, tab)
    requires tab.credential.Some? && Id(tab.marker) == Id(s.marker) ==> tab.credential == s.cookies
    ensures QuietMove(s, Entered(tab, s.marker, op, hasCsrf, expired))
  {
    ObservedKeeps(s, tab);
    hide Observed, TabKnown, History;
  }

  lemma AnswerKeeps(s: Sys, o: OpId, reply: Reply)
    requires Inv(s) && Known(s, o) && s.ops[o].phase.Sent? && Possible(s, s.ops[o].phase.call, reply)
    ensures Inv(Exec(s, Answer(o, reply)))
  {
    var r := Exec(s, Answer(o, reply));
    assert s.holder == Some(o);
    assert OneHolder(r);
    assert PhasesFit(r);
    assert Window(r) == MovesCookies(s.ops[o].phase.call, reply);
    forall t | HoldsCurrent(r, t) ensures HoldsCurrent(s, t) && TabKnown(s, s.tabs[t]) {
    }
  }

  lemma ResumeKeeps(s: Sys, o: OpId, id: MarkId)
    requires Inv(s) && Known(s, o) && s.ops[o].phase.Answered? && id !in s.published
    ensures Inv(Exec(s, Resume(o, id))) && !Window(Exec(s, Resume(o, id)))
  {
    var phase := s.ops[o].phase;
    var t := s.ops[o].tab;
    var m := Continued(s.tabs[t], phase.call, phase.reply, id);
    assert s.holder == Some(o) && AtCurrent(s, s.tabs[t]) && PhaseFits(s.cookies, phase);
    assert TabKnown(s, s.tabs[t]);
    if MovesCookies(phase.call, phase.reply) {
      LoudMoveKeeps(s, o, m);
    } else {
      assert HoldsCurrent(s, t) ==> s.tabs[t].credential == s.cookies;
      QuietMoveKeeps(s, o, m);
    }
  }

  lemma ProceedKeeps(s: Sys, o: OpId, expired: bool)
    requires Inv(s) && Known(s, o) && s.ops[o].phase.Running?
    ensures Inv(Exec(s, Proceed(o, expired)))
  {
    var t := s.ops[o].tab;
    assert s.holder == Some(o) && AtCurrent(s, s.tabs[t]) && TabKnown(s, s.tabs[t]);
    assert HoldsCurrent(s, t) ==> s.tabs[t].credential == s.cookies;
    QuietMoveKeeps(s, o, Proceeded(s.tabs[t], s.ops[o].phase.goal, expired));
  }

  lemma AbandonKeeps(s: Sys, o: OpId)
    requires Inv(s) && Known(s, o) && s.ops[o].phase.Waiting? && s.holder.None?
    ensures Inv(Exec(s, Abandon(o)))
  {
    assert TabKnown(s, s.tabs[s.ops[o].tab]);
    QuietMoveKeeps(s, o, Move(Cleared(s.tabs[s.ops[o].tab]), None, Finished));
  }

  lemma ExecKeeps(s: Sys, step: Step)
    requires Inv(s)
    ensures Inv(Exec(s, step))
  {
    hide Inv, Put, Entered, Continued, Proceeded, Submitted;
    match step
    case OpenTab(t) => if t !in s.tabs { OpenKeeps(s, t); }
    case Submit(o, t, action) => SubmitKeeps(s, o, t, action);
    case Enter(o, hasCsrf, expired) =>
      if Known(s, o) && s.ops[o].phase.Waiting? && s.holder.None? { EnterKeeps(s, o, hasCsrf, expired); }
    case Abandon(o) => if Known(s, o) && s.ops[o].phase.Waiting? && s.holder.None? { AbandonKeeps(s, o); }
    case Answer(o, reply) =>
      if Known(s, o) && s.ops[o].phase.Sent? && Possible(s, s.ops[o].phase.call, reply) { AnswerKeeps(s, o, reply); }
    case Resume(o, id) =>
      if Known(s, o) && s.ops[o].phase.Answered? && id !in s.published { ResumeKeeps(s, o, id); }
    case Proceed(o, expired) => if Known(s, o) && s.ops[o].phase.Running? { ProceedKeeps(s, o, expired); }
    case DropCredential(t) => if t in s.tabs { DropKeeps(s, t); }
  }

  lemma OpenKeeps(s: Sys, t: TabId)
    requires Inv(s) && t !in s.tabs
    ensures Inv(Exec(s, OpenTab(t)))
  {
    TabKeeps(s, t, OPENED);
  }

  lemma DropKeeps(s: Sys, t: TabId)
    requires Inv(s) && t in s.tabs
    ensures Inv(Exec(s, DropCredential(t)))
  {
    assert TabKnown(s, s.tabs[t]);
    TabKeeps(s, t, Cleared(s.tabs[t]));
  }

  lemma {:induction false} RunsKeep(s: Sys, steps: seq<Step>)
    requires Inv(s)
    ensures Inv(After(s, steps))
  {
    hide Inv, Exec;
    if steps != [] {
      RunsKeep(s, steps[..|steps| - 1]);
      ExecKeeps(After(s, steps[..|steps| - 1]), steps[|steps| - 1]);
    }
  }

  // ------------------------------------------------------------ main results

  /**
   In every reachable state the agreement holds exactly when no tab keeps a credential at
   the stored marker between a reply that moved the cookies and its publication.
   */
  lemma AgreementOutsideTheWindow(s: Sys, steps: seq<Step>)
    requires Init(s)
    ensures var r := After(s, steps);
      Agreement(r) <==> !(Window(r) && exists t :: HoldsCurrent(r, t))
  {
    InitInv(s);
    RunsKeep(s, steps);
  }

  /**
   Whatever the interleaving, a call that carries a bearer travels with cookies of the
   bearer's own sign-in, and nothing is on its way while the cookies are ahead of the marker.
   */
  lemma CallsMatchCookies(s: Sys, steps: seq<Step>, o: OpId)
    requires Init(s)
    requires var r := After(s, steps); o in r.ops && r.ops[o].phase.Sent?
    ensures var r := After(s, steps);
      && !Window(r) && Agreement(r)
      && (r.ops[o].phase.call.MeCall? || r.ops[o].phase.call.ChangeCall?
          ==> r.cookies == Some(r.ops[o].phase.call.bearer))
      && (forall p :: p in r.ops && r.ops[p].phase.Sent? ==> p == o)
  {
    InitInv(s);
    RunsKeep(s, steps);
    assert PhaseFits(After(s, steps).cookies, After(s, steps).ops[o].phase);
  }

  /** Inside the window nothing but the holder's publication moves cookies, marker or lock. */
  lemma WindowStays(s: Sys, step: Step)
    requires OneHolder(s) && Window(s)
    requires !(step.Resume? && Some(step.op) == s.holder && step.id !in s.published)
    ensures var next := Exec(s, step);
      Window(next) && next.published == s.published && next.cookies == s.cookies && next.marker == s.marker
  {
    hide Put, Entered, Continued, Proceeded, Submitted, MovesCookies, Possible, CookiesAfter, AtCurrent;
    var holder := s.holder.value;
    assert InLock(s.ops[holder].phase);
    assert step.Submit? ==> step.op !in s.ops || step.op in s.ops;
    assert step.Answer? && Known(s, step.op) ==> !s.ops[step.op].phase.Sent?;
    assert step.Proceed? && Known(s, step.op) ==> !s.ops[step.op].phase.Running?;
    assert step.Resume? && Known(s, step.op) && s.ops[step.op].phase.Answered? ==> s.holder == Some(step.op);
  }

  /** The window closes exactly when its tab publishes, and the agreement is back then. */
  lemma WindowClosesByPublishing(s: Sys, steps: seq<Step>, step: Step)
    requires Init(s) && Window(After(s, steps))
    ensures var r := After(s, steps); var next := Exec(r, step);
      if step.Resume? && Some(step.op) == r.holder && step.id !in r.published
      then Agreement(next) && Id(next.marker) == Some(step.id)
      else Window(next) && next.published == r.published && next.cookies == r.cookies
  {
    var r := After(s, steps);
    InitInv(s);
    RunsKeep(s, steps);
    if step.Resume? && Some(step.op) == r.holder && step.id !in r.published {
      assert Known(r, step.op);
      ResumeKeeps(r, step.op, step.id);
      var phase := r.ops[step.op].phase;
      assert PhaseFits(r.cookies, phase);
      MovedCookiesArePublished(r.tabs[r.ops[step.op].tab], phase.call, phase.reply, step.id);
    } else {
      WindowStays(r, step);
    }
  }

  lemma MovedCookiesArePublished(tab: Tab, call: Call, reply: Reply, id: MarkId)
    requires MovesCookies(call, reply)
    requires reply.Succeeded? ==> !call.MeCall?
    ensures var m := Continued(tab, call, reply, id); m.stored.Some? && m.stored.value.id == id
  {
  }

  // ------------------------------------------------------------ the marker's kind

  /** Outside the window the stored kind says whether there are session cookies. */
  predicate KindTells(s: Sys) {
    Window(s) || (s.marker.Some? ==> (s.marker.value.kind == SignedIn <==> s.cookies.Some?))
  }

  lemma ExecKeepsKind(s: Sys, step: Step)
    requires Inv(s) && KindTells(s)
    ensures KindTells(Exec(s, step))
  {
    var r := Exec(s, step);
    if Window(s) {
      if step.Resume? && Some(step.op) == s.holder && step.id !in s.published {
        assert Known(s, step.op);
        var phase := s.ops[step.op].phase;
        assert PhaseFits(s.cookies, phase);
        MovedCookiesTellTheKind(s, s.tabs[s.ops[step.op].tab], phase, step.id);
      } else {
        WindowStays(s, step);
      }
    } else {
      QuietStepsKeepKind(s, step);
    }
  }

  lemma MovedCookiesTellTheKind(s: Sys, tab: Tab, phase: Phase, id: MarkId)
    requires phase.Answered? && MovesCookies(phase.call, phase.reply) && PhaseFits(s.cookies, phase)
    ensures var m := Continued(tab, phase.call, phase.reply, id);
      m.stored.Some? && (m.stored.value.kind == SignedIn <==> s.cookies.Some?)
  {
  }

  lemma QuietStepsKeepKind(s: Sys, step: Step)
    requires Inv(s) && KindTells(s) && !Window(s)
    ensures KindTells(Exec(s, step))
  {
    var r := Exec(s, step);
    if step.Answer? {
      assert Known(s, step.op) && s.ops[step.op].phase.Sent? ==> s.holder == Some(step.op);
    } else if step.Resume? && Known(s, step.op) && s.ops[step.op].phase.Answered? {
      assert s.holder == Some(step.op);
      var phase := s.ops[step.op].phase;
      assert PhaseFits(s.cookies, phase);
      assert Continued(s.tabs[s.ops[step.op].tab], phase.call, phase.reply, step.id).stored.None?;
    }
    assert !step.Answer? ==> r.marker == s.marker && r.cookies == s.cookies;
  }

  lemma {:induction false} KindTellsOverRuns(s: Sys, steps: seq<Step>)
    requires Init(s) && KindTells(s)
    ensures KindTells(After(s, steps))
  {
    hide Inv, Exec, KindTells;
    if steps != [] {
      KindTellsOverRuns(s, steps[..|steps| - 1]);
      InitInv(s);
      RunsKeep(s, steps[..|steps| - 1]);
      ExecKeepsKind(After(s, steps[..|steps| - 1]), steps[|steps| - 1]);
    }
  }
}
