/** A queued operation reaches the server only if nobody signed in or out meanwhile. */
module TabCancellation {
  import opened Wrappers
  import opened Tabs
  import opened TabAgreement

  /** Nothing forgets a published marker, and nothing rewrites what an operation was submitted with. */
  predicate Extends(s: Sys, r: Sys) {
    && s.published <= r.published
    && (forall o :: o in s.ops ==> o in r.ops && r.ops[o].(phase := Waiting) == s.ops[o].(phase := Waiting))
  }

  lemma ExecExtends(s: Sys, step: Step)
    ensures Extends(s, Exec(s, step))
  {
    hide Entered, Continued, Proceeded, Submitted, Possible, CookiesAfter;
  }

  lemma {:induction false} RunExtends(s: Sys, steps: seq<Step>)
    ensures Extends(s, After(s, steps))
  {
    hide Exec;
    if steps != [] {
      RunExtends(s, steps[..|steps| - 1]);
      ExecExtends(After(s, steps[..|steps| - 1]), steps[|steps| - 1]);
    }
  }

  lemma {:induction false} PrefixExtends(s: Sys, steps: seq<Step>, k: nat)
    requires k <= |steps|
    ensures Extends(After(s, steps[..k]), After(s, steps))
  {
    hide Exec;
    if k == |steps| {
      assert steps[..k] == steps;
    } else {
      var init := steps[..|steps| - 1];
      PrefixExtends(s, init, k);
      assert init[..k] == steps[..k];
      ExecExtends(After(s, init), steps[|steps| - 1]);
    }
  }

  /** With no marker used twice, the stored identifier is unchanged only if nothing was published. */
  lemma SameMarkMeansSilence(s: Sys, r: Sys)
    requires History(s) && History(r) && s.published <= r.published
    ensures Id(s.marker) == Id(r.marker) <==> s.published == r.published
  {
    if |s.published| == |r.published| {
      assert s.published == r.published;
    } else if s.published != [] {
      var a, b := |s.published| - 1, |r.published| - 1;
      assert s.published[a] == r.published[a] != r.published[b];
    }
  }

  /** A locked submission is queued unless its tab sees a change, and carries the stored marker. */
  lemma SubmissionCarriesTheMarker(s: Sys, o: OpId, t: TabId, action: Action)
    requires Locked(action) && t in s.tabs && o !in s.ops
    ensures var r := Exec(s, Submit(o, t, action));
      && (o in r.ops <==> !Changed(s.tabs[t], s.marker))
      && (o in r.ops ==> r.ops[o] == Op(t, action, Exactly(Id(s.marker)), Waiting))
      && r.published == s.published && Id(r.marker) == Id(s.marker)
  {
  }

  /** A waiting locked operation gets to the server exactly by entering at its own marker. */
  lemma EntryChecksTheMarker(s: Sys, o: OpId, step: Step)
    requires Known(s, o) && s.ops[o].phase.Waiting? && Locked(s.ops[o].action) && s.ops[o].expected.Exactly?
    ensures var r := Exec(s, step);
      o in r.ops && (r.ops[o].phase.Sent?
        <==> step.Enter? && step.op == o && s.holder.None? && s.ops[o].expected.id == Id(s.marker))
  {
    hide Continued, Proceeded, Submitted, Possible, CookiesAfter, WithCredential;
  }

  /**
   Between the submission of an operation and the step that would send it, the operation
   is sent if and only if no marker was published, by any tab or by its own.
   */
  lemma SentOnlyIfNobodyPublished(
      start: Sys, before: seq<Step>, o: OpId, t: TabId, action: Action, between: seq<Step>, step: Step)
    requires Init(start) && Locked(action)
    requires var s := After(start, before); t in s.tabs && o !in s.ops && o in Exec(s, Submit(o, t, action)).ops
    requires var r := After(Exec(After(start, before), Submit(o, t, action)), between);
      o in r.ops && r.ops[o].phase.Waiting?
    ensures var s := After(start, before);
      var queued := Exec(s, Submit(o, t, action));
      var r := After(queued, between);
      && (o in Exec(r, step).ops && Exec(r, step).ops[o].phase.Sent?
          <==> step.Enter? && step.op == o && r.holder.None?
               && forall k :: 0 <= k <= |between| ==> After(queued, between[..k]).published == s.published)
  {
    var s := After(start, before);
    InitInv(start);
    RunsKeep(start, before);
    SubmissionCarriesTheMarker(s, o, t, action);
    ExecKeeps(s, Submit(o, t, action));
    var queued := Exec(s, Submit(o, t, action));
    RunsKeep(queued, between);
    RunExtends(queued, between);
    var r := After(queued, between);
    HistoryOf(queued);
    HistoryOf(r);
    SameMarkMeansSilence(queued, r);
    EntryChecksTheMarker(r, o, step);
    SilenceThroughout(queued, between);
  }

  lemma HistoryOf(s: Sys)
    requires Inv(s)
    ensures History(s) && forall o :: o in s.ops ==> Known(s, o)
  {
  }

  lemma SilenceThroughout(s: Sys, steps: seq<Step>)
    ensures After(s, steps).published == s.published
      <==> forall k :: 0 <= k <= |steps| ==> After(s, steps[..k]).published == s.published
  {
    hide Exec;
    assert steps[..|steps|] == steps;
    forall k | 0 <= k <= |steps| ensures s.published <= After(s, steps[..k]).published <= After(s, steps).published {
      RunExtends(s, steps[..k]);
      PrefixExtends(s, steps, k);
    }
  }
}
