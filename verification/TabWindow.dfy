/** A run on which the agreement fails, inside the window between a reply and its publication. */
module TabWindow {
  import opened Wrappers
  import opened Tabs

  const NOTHING := Sys(None, [], None, {}, None, map[], map[])

  /** A tab signs in. */
  const SIGN_IN: seq<Step> := [
    OpenTab(0), Submit(0, 0, LogIn), Enter(0, false, false), Answer(0, Granted(1)), Resume(0, 1)]

  /** It loads its profile. */
  const LOAD: seq<Step> := [Proceed(0, false), Answer(0, Succeeded), Resume(0, 2)]

  /** It signs in again; the reply has arrived and is not published yet. */
  const SIGN_IN_AGAIN: seq<Step> := [Submit(1, 0, LogIn), Enter(1, true, false), Answer(1, Granted(2))]

  function NotSignedIn(phase: Phase): Sys {
    Sys(None, [], None, {}, if phase.Waiting? then None else Some(0),
        map[0 := OPENED.(observed := true)], map[0 := Op(0, LogIn, Exactly(None), phase)])
  }

  function SignedInOnce(phase: Phase): Sys {
    var mark := Some(Mark(1, SignedIn));
    Sys(mark, [1], Some(1), {1}, if phase.Finished? then None else Some(0),
        map[0 := Tab(Some(1), mark, true, false)], map[0 := Op(0, LogIn, Exactly(None), phase)])
  }

  lemma {:induction false} AfterJoins(s: Sys, a: seq<Step>, b: seq<Step>)
    ensures After(s, a + b) == After(After(s, a), b)
  {
    if b == [] {
      assert a + b == a;
    } else {
      AfterJoins(s, a, b[..|b| - 1]);
      assert (a + b)[..|a + b| - 1] == a + b[..|b| - 1];
    }
  }

  lemma AfterOne(s: Sys, step: Step, r: Sys)
    requires Exec(s, step) == r
    ensures After(s, [step]) == r
  {
    assert [step][..0] == [];
  }

  lemma AfterTwo(s: Sys, a: Step, r: Sys, b: Step, t: Sys)
    requires Exec(s, a) == r && Exec(r, b) == t
    ensures After(s, [a, b]) == t
  {
    AfterOne(s, a, r);
    AfterOne(r, b, t);
    AfterJoins(s, [a], [b]);
    assert [a] + [b] == [a, b];
  }

  lemma TabEnters()
    ensures After(NOTHING, SIGN_IN[..3]) == NotSignedIn(Sent(LoginCall))
  {
    hide After;
    var s1 := NOTHING.(tabs := map[0 := OPENED]);
    var s2 := NotSignedIn(Waiting);
    assert Exec(s1, Submit(0, 0, LogIn)).tabs == s2.tabs;
    AfterTwo(NOTHING, OpenTab(0), s1, Submit(0, 0, LogIn), s2);
    assert Exec(s2, Enter(0, false, false)).tabs == s2.tabs;
    AfterOne(s2, Enter(0, false, false), NotSignedIn(Sent(LoginCall)));
    AfterJoins(NOTHING, [OpenTab(0), Submit(0, 0, LogIn)], [Enter(0, false, false)]);
    assert SIGN_IN[..3] == [OpenTab(0), Submit(0, 0, LogIn)] + [Enter(0, false, false)];
  }

  lemma SignInSucceeds()
    ensures After(NOTHING, SIGN_IN) == SignedInOnce(Running(ThenProfile))
  {
    hide After;
    TabEnters();
    var s3 := NotSignedIn(Sent(LoginCall));
    var s4 := NotSignedIn(Answered(LoginCall, Granted(1))).(cookies := Some(1), signIns := {1});
    AfterTwo(s3, Answer(0, Granted(1)), s4, Resume(0, 1), SignedInOnce(Running(ThenProfile)));
    AfterJoins(NOTHING, SIGN_IN[..3], [Answer(0, Granted(1)), Resume(0, 1)]);
    assert SIGN_IN == SIGN_IN[..3] + [Answer(0, Granted(1)), Resume(0, 1)];
  }

  lemma LoadSucceeds()
    ensures After(SignedInOnce(Running(ThenProfile)), LOAD) == SignedInOnce(Finished)
  {
    hide After;
    var s0, s1 := SignedInOnce(Running(ThenProfile)), SignedInOnce(Sent(MeCall(1)));
    var s2, s3 := SignedInOnce(Answered(MeCall(1), Succeeded)), SignedInOnce(Finished);
    AfterTwo(s0, Proceed(0, false), s1, Answer(0, Succeeded), s2);
    AfterOne(s2, Resume(0, 2), s3);
    AfterJoins(s0, [Proceed(0, false), Answer(0, Succeeded)], [Resume(0, 2)]);
    assert LOAD == [Proceed(0, false), Answer(0, Succeeded)] + [Resume(0, 2)];
  }

  lemma SignInAgainOpensTheWindow()
    ensures var r := After(SignedInOnce(Finished), SIGN_IN_AGAIN);
      HoldsCurrent(r, 0) && r.cookies != r.tabs[0].credential
  {
    hide After;
    var s0 := SignedInOnce(Finished);
    var s1 := s0.(ops := s0.ops[1 := Op(0, LogIn, Exactly(Some(1)), Waiting)]);
    var s2 := s0.(ops := s0.ops[1 := Op(0, LogIn, Exactly(Some(1)), Sent(LoginCall))], holder := Some(1));
    AfterTwo(s0, Submit(1, 0, LogIn), s1, Enter(1, true, false), s2);
    AfterOne(s2, Answer(1, Granted(2)), Exec(s2, Answer(1, Granted(2))));
    AfterJoins(s0, [Submit(1, 0, LogIn), Enter(1, true, false)], [Answer(1, Granted(2))]);
    assert SIGN_IN_AGAIN == [Submit(1, 0, LogIn), Enter(1, true, false)] + [Answer(1, Granted(2))];
  }

  /** The plain claim is false: this run of one tab breaks it. */
  lemma AgreementFailsInTheWindow()
    ensures Init(NOTHING) && !Agreement(After(NOTHING, SIGN_IN + LOAD + SIGN_IN_AGAIN))
  {
    hide After, Exec;
    AfterJoins(NOTHING, SIGN_IN + LOAD, SIGN_IN_AGAIN);
    AfterJoins(NOTHING, SIGN_IN, LOAD);
    SignInSucceeds();
    LoadSucceeds();
    SignInAgainOpensTheWindow();
  }
}
