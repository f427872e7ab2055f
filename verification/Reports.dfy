/** Whose report a reply is: the guest's calls of host_set_result
    (kafig-runtime/src/result.rs, error.rs) as the host keeps them
    (kafig-go/instance.go), the last one of each kind winning. The drain of stale
    jobs comes after the host's reset, so its reports count as this invocation's. */
module Reports {
  import opened Rpc
  import opened Protocol
  import opened ProtocolProofs
  import opened ProtocolTheorems

  datatype Heard = Heard(error: Option<string>, result: Option<string>)

  /** What the host holds after a trace, having held `before`. */
  function HeardAfter(tr: Trace, before: Heard): Heard {
    if tr == [] then before
    else
      var next := match tr[0]
        case SetError(e) => before.(error := Some(e))
        case SetResult(j) => before.(result := Some(j))
        case _ => before;
      HeardAfter(tr[1..], next)
  }

  const NOTHING := Heard(None, None)

  predicate ReportsError(tr: Trace) {
    exists a :: a in tr && a.SetError?
  }

  predicate ReportsResult(tr: Trace) {
    exists a :: a in tr && a.SetResult?
  }

  ghost function Held(s: State): Heard {
    Heard(s.error, s.result)
  }

  lemma {:induction false} HeardConcat(a: Trace, b: Trace, before: Heard)
    ensures HeardAfter(a + b, before) == HeardAfter(b, HeardAfter(a, before))
    decreases |a|
  {
    if a == [] {
      assert a + b == b;
    } else {
      assert (a + b)[1..] == a[1..] + b;
      var next := match a[0]
        case SetError(e) => before.(error := Some(e))
        case SetResult(j) => before.(result := Some(j))
        case _ => before;
      HeardConcat(a[1..], b, next);
    }
  }

  /** A trace that reports decides; one that does not leaves what was there. */
  lemma {:induction false} HeardIff(tr: Trace, before: Heard)
    ensures var h, own := HeardAfter(tr, before), HeardAfter(tr, NOTHING);
      && own.error.Some? == ReportsError(tr) && own.result.Some? == ReportsResult(tr)
      && h.error == (if ReportsError(tr) then own.error else before.error)
      && h.result == (if ReportsResult(tr) then own.result else before.result)
    decreases |tr|
  {
    if tr != [] {
      var front, last := tr[..|tr| - 1], tr[|tr| - 1];
      assert tr == front + [last];
      HeardConcat(front, [last], before);
      HeardConcat(front, [last], NOTHING);
      HeardIff(front, before);
      assert forall a :: a in tr <==> a in front || a == last;
    }
  }

  /** The last report of a kind is the one that is held, and the kinds do not mix. */
  lemma LastReportIsHeld(tr: Trace, a: Action, before: Heard)
    ensures HeardAfter([], before) == before
    ensures a.SetError? ==> HeardAfter(tr + [a], before) == Heard(Some(a.text), HeardAfter(tr, before).result)
    ensures a.SetResult? ==> HeardAfter(tr + [a], before) == Heard(HeardAfter(tr, before).error, Some(a.json))
    ensures !a.SetError? && !a.SetResult? ==> HeardAfter(tr + [a], before) == HeardAfter(tr, before)
  {
    HeardConcat(tr, [a], before);
    assert [a][1..] == [];
  }

  lemma {:induction false} ActsReport(s: State, tr: Trace)
    ensures Held(Acts(s, tr)) == HeardAfter(tr, Held(s))
    decreases |tr|
  {
    if tr != [] {
      ActReports(s, tr[0]);
      ActsReport(Act(s, tr[0]), tr[1..]);
    }
  }

  lemma ActReports(s: State, a: Action)
    ensures Held(Act(s, a)) == match a
      case SetError(e) => Held(s).(error := Some(e))
      case SetResult(j) => Held(s).(result := Some(j))
      case _ => Held(s)
  {
    hide Taken;
    match a
    case Send(u, p) =>
    case _ =>
  }

  /** The trace of an iteration of the loop; goroutines report nothing. */
  function StepTrace(st: Step): Trace {
    match st
    case Feed(tr) => tr
    case FeedBreaks(_, tr) => tr
    case _ => []
  }

  /** Everything the guest did in these steps. */
  function Said(steps: seq<Step>): Trace {
    if steps == [] then [] else StepTrace(steps[0]) + Said(steps[1..])
  }

  lemma {:induction false} SaidMore(steps: seq<Step>, st: Step)
    ensures Said(steps + [st]) == Said(steps) + StepTrace(st)
    decreases |steps|
  {
    if steps == [] {
      assert [st][1..] == [];
    } else {
      assert (steps + [st])[1..] == steps[1..] + [st];
      SaidMore(steps[1..], st);
    }
  }

  lemma BeginReports(s: State, drain: Trace, resets: bool, body: Trace, async: bool)
    ensures Held(BeginWith(s, drain, resets, body, async, false)) ==
      HeardAfter(body, if s.used then HeardAfter(drain, NOTHING) else NOTHING)
  {
    var a := ResetState(s);
    ActsReport(a.(used := false, draining := true), drain);
    ActsReport(Discard(a, drain, resets, false), body);
  }

  lemma BrokenReports(s: State, reached: Reached)
    requires s.cur.chan != []
    ensures Held(Broken(s, reached)) == Held(s)
  {
    match reached
    case Settled => FedFrame(s);
    case _ =>
  }

  lemma StepReports(s: State, st: Step)
    requires CanStep(s, st) && !st.Begin? && !st.BeginFailed?
    ensures Held(Apply(s, st)) == HeardAfter(StepTrace(st), Held(s))
  {
    match st
    case Feed(tr) =>
      FedFrame(s);
      ActsReport(Fed(s), tr);
    case FeedBreaks(reached, tr) =>
      BrokenReports(s, reached);
      ActsReport(Broken(s, reached), tr);
    case Go(m) =>
    case _ =>
  }

  lemma {:induction false} StepsReport(s: State, steps: seq<Step>)
    requires Run(s, steps) && forall st :: st in steps ==> !st.Begin? && !st.BeginFailed?
    ensures Held(After(s, steps)) == HeardAfter(Said(steps), Held(s))
    decreases |steps|
  {
    if steps != [] {
      assert steps[0] in steps;
      StepReports(s, steps[0]);
      StepsReport(Apply(s, steps[0]), steps[1..]);
      HeardConcat(StepTrace(steps[0]), Said(steps[1..]), Held(s));
    }
  }

  /** The exact answer: after any steps of an invocation, an error is held if and
      only if the invocation's own trace reported one, or its clean-up drained a
      stale job that did; the error held is the invocation's own if and only if it
      reported one itself or no drained job did. The same for results. */
  lemma ReplyIsOwnIff(s: State, drain: Trace, resets: bool, body: Trace, async: bool, steps: seq<Step>)
    requires CanStep(s, Begin(drain, resets, body, async)) && Run(Apply(s, Begin(drain, resets, body, async)), steps)
    requires forall st :: st in steps ==> !st.Begin? && !st.BeginFailed?
    ensures var t := After(Apply(s, Begin(drain, resets, body, async)), steps);
      var own := body + Said(steps);
      && (t.error.Some? <==> ReportsError(own) || (s.used && ReportsError(drain)))
      && (t.result.Some? <==> ReportsResult(own) || (s.used && ReportsResult(drain)))
      && (t.error == HeardAfter(own, NOTHING).error <==> ReportsError(own) || !(s.used && ReportsError(drain)))
      && (t.result == HeardAfter(own, NOTHING).result <==> ReportsResult(own) || !(s.used && ReportsResult(drain)))
  {
    var b := Apply(s, Begin(drain, resets, body, async));
    var stale := if s.used then HeardAfter(drain, NOTHING) else NOTHING;
    BeginReports(s, drain, resets, body, async);
    StepsReport(b, steps);
    HeardConcat(body, Said(steps), stale);
    HeardIff(drain, NOTHING);
    HeardIff(body + Said(steps), stale);
    hide Apply, Run, After, HeardAfter, Said;
  }

  /** A stale job's rejection is the reply of an invocation that does nothing. */
  lemma StaleJobCanAnswer(router: Router, text: string)
    ensures exists steps: seq<Step> ::
      Run(Init(router), steps) && After(Init(router), steps).inv == 2 && After(Init(router), steps).error == Some(text)
  {
    var s0 := Init(router);
    var st1 := Begin([], true, [Draw("m"), Send(1, "{}")], false);
    var st2 := Begin([SetError(text)], true, [], false);
    var s1 := Apply(s0, st1);
    SentFlags(s0);
    BeginReports(s1, [SetError(text)], true, [], false);
    BeginCounts(s0, [], true, [Draw("m"), Send(1, "{}")], false);
    BeginCounts(s1, [SetError(text)], true, [], false);
    var s2 := Apply(s1, st2);
    assert Held(s2).error == Some(text);
    TwoSteps(s0, st1, st2);
  }

  lemma TwoSteps(s: State, st1: Step, st2: Step)
    requires CanStep(s, st1) && CanStep(Apply(s, st1), st2)
    ensures Run(s, [st1, st2]) && After(s, [st1, st2]) == Apply(Apply(s, st1), st2)
  {
    var t := Apply(Apply(s, st1), st2);
    assert [st1, st2][1..] == [st2] && [st2][1..] == [];
    assert Run(t, []) && After(t, []) == t;
    assert Run(Apply(s, st1), [st2]) && After(Apply(s, st1), [st2]) == t;
  }

  lemma SentFlags(s0: State)
    requires s0 == Init(s0.router)
    ensures var s := BeginWith(s0, [], true, [Draw("m"), Send(1, "{}")], false, false); s.used && !s.looping
  {
    var body: Trace := [Draw("m"), Send(1, "{}")];
    var a := Discard(ResetState(s0), [], true, false);
    var b := Act(a, Draw("m"));
    var c := Act(b, Send(1, "{}"));
    assert body[1..] == [Send(1, "{}")] && body[1..][1..] == [];
    assert Acts(b, body[1..]) == c;
    assert Acts(a, body) == c;
  }

  lemma BeginCounts(s: State, drain: Trace, resets: bool, body: Trace, async: bool)
    ensures BeginWith(s, drain, resets, body, async, false).inv == s.inv + 1
  {
    var a := ResetState(s);
    ActsFix(a.(used := false, draining := true), drain);
    ActsFix(Discard(a, drain, resets, false), body);
  }
}
