/** Termination and deadlock freedom of the service loop, for every schedule. */
module ProtocolLiveness {
  import opened Rpc
  import opened PromiseIds
  import opened Protocol
  import opened ProtocolProofs
  import opened ProtocolTheorems

  // ---------------------------------------------------------------- the measure

  /** Every call takes three more steps when queued or in its handler, two when
      its result is ready, one when it is in the channel. */
  function Distance(s: State): nat {
    3 * |s.pending| + 3 * |s.cur.working| + 2 * |s.cur.ready| + |s.cur.chan|
  }

  /** Steps on the current loop; Drop needs a context that is done. */
  predicate LoopStep(st: Step) {
    match st
    case Go(m) => !m.Drop?
    case Feed(_) => true
    case FeedBreaks(_, _) => true
    case _ => false
  }

  function Iterations(steps: seq<Step>): nat {
    if steps == [] then 0
    else (if steps[0].Feed? || steps[0].FeedBreaks? then 1 else 0) + Iterations(steps[1..])
  }

  lemma FedCosts(s: State)
    requires s.cur.chan != []
    ensures Distance(Fed(s)) + 1 == Distance(s) && Fed(s).queued == s.queued
    ensures |Fed(s).cur.fed| == |s.cur.fed| + 1 && Fed(s).cur.lost == s.cur.lost
  {
    FedFrame(s);
  }

  lemma LaunchIsFree(s: State)
    ensures Distance(Launch(s)) == Distance(s) && Distance(StopWithError(s)) == Distance(s)
    ensures Launch(s).cur.fed == s.cur.fed && Launch(s).cur.lost == s.cur.lost && Launch(s).queued == s.queued
  {
  }

  lemma FeedCosts(s: State, tr: Trace)
    requires s.cur.chan != []
    ensures var t := FeedOk(s, tr);
      && Distance(t) + 1 == Distance(s) + 3 * (|t.queued| - |s.queued|)
      && |t.cur.fed| + |t.cur.lost| == |s.cur.fed| + |s.cur.lost| + 1
  {
    FedCosts(s);
    ActsFix(Fed(s), tr);
    LaunchIsFree(Segment(Fed(s), tr));
  }

  lemma BreakCosts(s: State, reached: Reached, tr: Trace)
    requires s.cur.chan != []
    ensures var t := FeedBroken(s, reached, tr);
      && Distance(t) + 1 == Distance(s) + 3 * (|t.queued| - |s.queued|)
      && |t.cur.fed| + |t.cur.lost| == |s.cur.fed| + |s.cur.lost| + 1
  {
    BrokenCosts(s, reached);
    ActsFix(Broken(s, reached), tr);
    LaunchIsFree(Segment(Broken(s, reached), tr));
    hide Broken, Acts;
  }

  lemma BrokenCosts(s: State, reached: Reached)
    requires s.cur.chan != []
    ensures var t := Broken(s, reached);
      && Distance(t) + 1 == Distance(s) && t.queued == s.queued
      && |t.cur.fed| + |t.cur.lost| == |s.cur.fed| + |s.cur.lost| + 1
  {
    match reached
    case Settled => FedCosts(s);
    case _ =>
  }

  lemma LoopStepCosts(s: State, st: Step)
    requires CanStep(s, st) && LoopStep(st)
    ensures var t := Apply(s, st);
      && Distance(t) + 1 == Distance(s) + 3 * (|t.queued| - |s.queued|)
      && |t.cur.fed| + |t.cur.lost| == |s.cur.fed| + |s.cur.lost| + Iterations([st])
  {
    match st
    case Feed(tr) => FeedCosts(s, tr);
    case FeedBreaks(reached, tr) => BreakCosts(s, reached, tr);
    case Go(m) =>
  }

  /** Conservation of work: a run of the loop and its goroutines, in any order,
      takes exactly as many steps as its calls have left. */
  lemma {:induction false} LoopRunCosts(s: State, steps: seq<Step>)
    requires Run(s, steps) && forall st :: st in steps ==> LoopStep(st)
    ensures var t := After(s, steps);
      && Distance(t) + |steps| == Distance(s) + 3 * (|t.queued| - |s.queued|)
      && |t.cur.fed| + |t.cur.lost| == |s.cur.fed| + |s.cur.lost| + Iterations(steps)
    decreases |steps|
  {
    if steps != [] {
      LoopStepCosts(s, steps[0]);
      LoopRunCosts(Apply(s, steps[0]), steps[1..]);
    }
  }

  /** Termination: from the start of a service loop, if the guest issues N calls
      in all, no schedule takes more than 3N steps, and a loop that returns nil
      has taken exactly 3N, N of them iterations. */
  lemma LoopTerminates(router: Router, prefix: seq<Step>, drain: Trace, resets: bool, body: Trace, steps: seq<Step>)
    requires Run(Init(router), prefix) && !After(Init(router), prefix).looping
    requires var s := BeginWith(After(Init(router), prefix), drain, resets, body, true, false);
      s.looping && Run(s, steps) && forall st :: st in steps ==> LoopStep(st)
    ensures var s := BeginWith(After(Init(router), prefix), drain, resets, body, true, false);
      var t := After(s, steps);
      && |steps| <= 3 * |t.queued|
      && (!t.looping && !t.torn ==> |steps| == 3 * |t.queued| && Iterations(steps) == |t.queued|)
  {
    var r := After(Init(router), prefix);
    var s := BeginWith(r, drain, resets, body, true, false);
    InitInv(router);
    RunKeepsInv(Init(router), prefix, false);
    BeginKeepsInv(r, drain, resets, body, true, false);
    LoopStart(r, drain, resets, body);
    LoopRunCosts(s, steps);
    RunKeepsInv(s, steps, false);
    var t := After(s, steps);
    if !t.looping && !t.torn && steps != [] {
      NilKeepsNoPending(s, steps);
      AllFed(t);
      EmptyBag(t.cur);
      assert |multiset(t.queued)| == |multiset(t.cur.fed)|;
    }
  }

  lemma LoopStart(r: State, drain: Trace, resets: bool, body: Trace)
    requires Inv(r) && !r.looping && BeginWith(r, drain, resets, body, true, false).looping
    ensures var s := BeginWith(r, drain, resets, body, true, false);
      Distance(s) == 3 * |s.queued| && s.cur.fed == [] && s.cur.lost == []
  {
    var a := ResetState(r);
    ActsFix(a.(used := false, draining := true), drain);
    ActsFix(Discard(a, drain, resets, false), body);
  }

  lemma {:induction false} NilKeepsNoPending(s: State, steps: seq<Step>)
    requires Inv(s) && s.looping && Run(s, steps) && forall st :: st in steps ==> LoopStep(st)
    requires !After(s, steps).torn
    ensures After(s, steps).pending == []
    decreases |steps|
  {
    if steps != [] {
      var t := Apply(s, steps[0]);
      StepKeepsInv(s, steps[0], false);
      if t.looping {
        NilKeepsNoPending(t, steps[1..]);
      } else {
        if steps[0].Feed? && !t.torn { FeedEmptiesQueue(s, steps[0].tr); }
        StoppedStays(t, steps[1..]);
      }
    }
  }

  lemma {:induction false} StoppedStays(s: State, steps: seq<Step>)
    requires !s.looping && Run(s, steps) && forall st :: st in steps ==> LoopStep(st)
    ensures var t := After(s, steps); t.pending == s.pending && t.torn == s.torn && !t.looping
    decreases |steps|
  {
    if steps != [] {
      assert steps[0] in steps && steps[0].Go?;
      StoppedStays(Apply(s, steps[0]), steps[1..]);
    }
  }

  // ---------------------------------------------------------------- deadlock freedom

  /** Neither the loop nor any of its goroutines can take a step. */
  ghost predicate Stuck(s: State) {
    forall st: Step :: st.Go? || st.Feed? || st.FeedBreaks? ==> !CanStep(s, st)
  }

  lemma LoopShape(s: State)
    requires Inv(s) && s.looping
    ensures |s.cur.working| + |s.cur.ready| + |s.cur.chan| + |s.cur.dropped| == s.cur.inflight > 0
    ensures s.cur.dropped != [] ==> s.cur.cancelled
  {
    EmptyBag(s.cur);
  }

  /** The loop can block for ever exactly when every launched call was dropped,
      which takes a context that is done. Otherwise some goroutine can move or a
      result is waiting, however many senders are blocked on the 16 slots. */
  lemma StuckIffAllDropped(router: Router, steps: seq<Step>)
    requires Run(Init(router), steps) && After(Init(router), steps).looping
    ensures var s := After(Init(router), steps);
      && (Stuck(s) <==> |s.cur.dropped| == s.cur.inflight)
      && (Stuck(s) ==> s.cur.cancelled)
      && (!s.cur.cancelled ==> exists st :: CanStep(s, st) && LoopStep(st))
  {
    InitInv(router);
    RunKeepsInv(Init(router), steps, false);
    StuckOrMoves(After(Init(router), steps));
  }

  lemma StuckOrMoves(s: State)
    requires Inv(s) && s.looping
    ensures Stuck(s) <==> |s.cur.dropped| == s.cur.inflight
    ensures |s.cur.dropped| == s.cur.inflight ==> s.cur.cancelled
    ensures |s.cur.dropped| != s.cur.inflight ==> exists st :: CanStep(s, st) && LoopStep(st)
  {
    LoopShape(s);
    if s.cur.chan != [] {
      assert CanStep(s, Feed([])) && LoopStep(Feed([]));
    } else if s.cur.ready != [] {
      assert CanStep(s, Go(Post(0))) && LoopStep(Go(Post(0)));
    } else if s.cur.working != [] {
      assert CanStep(s, Go(Work(0))) && LoopStep(Go(Work(0)));
    } else {
      AllDroppedIsStuck(s);
    }
  }

  /** Loop steps do not end a context while the loop goes on. */
  lemma {:induction false} StaysOpen(s: State, steps: seq<Step>)
    requires Run(s, steps) && s.looping && !s.cur.cancelled && forall st :: st in steps ==> LoopStep(st)
    ensures After(s, steps).looping ==> !After(s, steps).cur.cancelled
    decreases |steps|
  {
    if steps != [] {
      assert steps[0] in steps;
      StepStaysOpen(s, steps[0]);
      var t := Apply(s, steps[0]);
      if t.looping {
        StaysOpen(t, steps[1..]);
      } else {
        StoppedStays(t, steps[1..]);
      }
    }
  }

  lemma StepStaysOpen(s: State, st: Step)
    requires CanStep(s, st) && LoopStep(st) && s.looping && !s.cur.cancelled
    ensures Apply(s, st).looping ==> !Apply(s, st).cur.cancelled
  {
    match st
    case Feed(tr) => FeedStaysOpen(s, tr);
    case FeedBreaks(_, _) =>
    case Go(m) =>
  }

  lemma FeedStaysOpen(s: State, tr: Trace)
    requires s.cur.chan != [] && !s.cur.cancelled
    ensures FeedOk(s, tr).looping ==> !FeedOk(s, tr).cur.cancelled
  {
    FedLoop(s);
    ActsFix(Fed(s), tr);
    hide Fed, Acts;
  }

  /** Total correctness: while the context is not done, every schedule of the loop
      and its goroutines is finite, and when nothing can move any more the loop has
      returned; if it was not cut short, every call was settled exactly once. */
  lemma EveryScheduleReturns(router: Router, prefix: seq<Step>, steps: seq<Step>)
    requires Run(Init(router), prefix) && After(Init(router), prefix).looping && !After(Init(router), prefix).cur.cancelled
    requires Run(After(Init(router), prefix), steps) && forall st :: st in steps ==> LoopStep(st)
    ensures var s := After(Init(router), prefix);
      var t := After(s, steps);
      && |steps| <= Distance(s) + 3 * (|t.queued| - |s.queued|)
      && ((forall st :: LoopStep(st) ==> !CanStep(t, st)) ==> !t.looping)
      && (!t.looping && !t.torn ==> multiset(t.cur.fed) == multiset(t.queued))
  {
    var s := After(Init(router), prefix);
    var t := After(s, steps);
    InitInv(router);
    RunKeepsInv(Init(router), prefix, false);
    RunKeepsInv(s, steps, false);
    LoopRunCosts(s, steps);
    StaysOpen(s, steps);
    if t.looping {
      StuckOrMoves(t);
    } else if !t.torn {
      NilKeepsNoPending(s, steps);
      AllFed(t);
    }
  }

  lemma QuietMeansReady(t: State)
    requires Inv(t) && t.looping && !t.cur.cancelled
    requires forall m: Move :: !m.Drop? ==> !CanMove(t.cur, m)
    ensures t.cur.chan != []
  {
    LoopShape(t);
    assert !CanMove(t.cur, Work(0));
    assert !CanMove(t.cur, Post(0));
  }

  /** While the context is not done, goroutines alone can only take finitely many
      steps, and when none of them can, a result is waiting for the loop. */
  lemma ReceiveIsEventuallyEnabled(s: State, moves: seq<Step>)
    requires Inv(s) && s.looping
    requires Run(s, moves) && forall st :: st in moves ==> st.Go? && !st.m.Drop?
    ensures |moves| <= 2 * |s.cur.working| + |s.cur.ready|
    ensures var t := After(s, moves);
      !t.cur.cancelled && (forall m: Move :: !m.Drop? ==> !CanMove(t.cur, m)) ==> t.cur.chan != []
  {
    MovesOnly(s, moves);
    RunKeepsInv(s, moves, false);
    var t := After(s, moves);
    if !t.cur.cancelled && forall m: Move :: !m.Drop? ==> !CanMove(t.cur, m) {
      QuietMeansReady(t);
    }
  }

  lemma {:induction false} MovesOnly(s: State, moves: seq<Step>)
    requires Run(s, moves) && forall st :: st in moves ==> st.Go? && !st.m.Drop?
    ensures var t := After(s, moves);
      && t.looping == s.looping && t.pending == s.pending
      && 2 * |t.cur.working| + |t.cur.ready| + |moves| == 2 * |s.cur.working| + |s.cur.ready|
    decreases |moves|
  {
    if moves != [] { MovesOnly(Apply(s, moves[0]), moves[1..]); }
  }

  // ---------------------------------------------------------------- exactly when a done context blocks the loop

  /** Goroutine moves, and iterations in which the guest issues nothing. */
  predicate Quiet(st: Step) {
    st.Go? || st == Feed([])
  }

  /** A launched call whose result is not in the channel. */
  predicate Outside(s: State) {
    s.cur.working != [] || s.cur.ready != [] || s.cur.dropped != []
  }

  lemma QuietFeed(s: State)
    requires Inv(s) && s.looping && s.cur.chan != []
    ensures var t := FeedOk(s, []);
      && t.error == s.error && Distance(t) + 1 == Distance(s)
      && t.cur.working == s.cur.working && t.cur.ready == s.cur.ready && t.cur.dropped == s.cur.dropped
      && t.looping == (s.error.None? && s.cur.inflight > 1)
      && (s.cur.cancelled ==> t.cur.cancelled)
  {
    var f := Fed(s);
    FedFrame(s);
    FedLoop(s);
    FedCosts(s);
    FeedNothing(s);
    assert s.pending == [];
    hide Fed, Inv, FeedOk, Launch, StopWithError, Distance;
    LaunchIsFree(f);
    LaunchNothing(f);
  }

  lemma FeedNothing(s: State)
    requires s.cur.chan != [] && s.open == map[]
    ensures FeedOk(s, []) == if s.error.Some? then StopWithError(Fed(s)) else Launch(Fed(s))
  {
    assert Segment(Fed(s), []) == Fed(s);
  }

  lemma LaunchNothing(s: State)
    requires s.pending == []
    ensures var t := Launch(s);
      && t.error == s.error && t.looping == (s.cur.inflight > 0) && (s.cur.cancelled ==> t.cur.cancelled)
      && t.cur.working == s.cur.working && t.cur.ready == s.cur.ready && t.cur.dropped == s.cur.dropped
    ensures var t := StopWithError(s);
      && t.error == s.error && !t.looping && t.cur.cancelled
      && t.cur.working == s.cur.working && t.cur.ready == s.cur.ready && t.cur.dropped == s.cur.dropped
  {
  }

  /** From here a quiet continuation can end with the loop blocked for ever. */
  ghost predicate MayBlock(s: State) {
    exists more: seq<Step> ::
      Run(s, more) && (forall st :: st in more ==> Quiet(st)) && After(s, more).looping && Stuck(After(s, more))
  }

  lemma MayBlockEarlier(s: State, st: Step)
    requires CanStep(s, st) && Quiet(st) && MayBlock(Apply(s, st))
    ensures MayBlock(s)
  {
    var rest: seq<Step> :|
      Run(Apply(s, st), rest) && (forall x :: x in rest ==> Quiet(x)) &&
      After(Apply(s, st), rest).looping && Stuck(After(Apply(s, st), rest));
    OneMore(s, st, rest);
    assert forall x :: x in [st] + rest ==> x == st || x in rest;
  }

  lemma MayBlockNow(s: State)
    requires s.looping && Stuck(s)
    ensures MayBlock(s)
  {
    assert Run(s, []) && After(s, []) == s;
  }

  /** With the context done, goroutines may drop everything that is not in the channel. */
  lemma {:induction false} OutsideMayBlock(s: State)
    requires Inv(s) && s.looping && s.cur.cancelled && Outside(s) && (s.error.None? || s.cur.chan == [])
    ensures MayBlock(s)
    decreases Distance(s)
  {
    LoopShape(s);
    if s.cur.working != [] {
      FollowMove(s, Work(0));
    } else if s.cur.ready != [] {
      FollowMove(s, Drop(0));
    } else if s.cur.chan != [] {
      QuietFeed(s);
      StepKeepsInv(s, Feed([]), false);
      OutsideMayBlock(FeedOk(s, []));
      MayBlockEarlier(s, Feed([]));
    } else {
      AllDroppedIsStuck(s);
      MayBlockNow(s);
    }
  }

  lemma FollowMove(s: State, m: Move)
    requires Inv(s) && s.looping && s.cur.cancelled && (s.error.None? || s.cur.chan == [])
    requires CanMove(s.cur, m) && !m.Post?
    ensures MayBlock(s)
    decreases Distance(s), 0
  {
    var t := Apply(s, Go(m));
    StepKeepsInv(s, Go(m), false);
    OutsideMayBlock(t);
    MayBlockEarlier(s, Go(m));
  }

  /** What keeps quiet continuations from blocking: every result is in the channel,
      or an error was reported and a result is there to deliver it to. */
  ghost predicate Safe(s: State) {
    s.looping ==> if s.error.None? then !Outside(s) else s.cur.chan != []
  }

  lemma QuietStepStaysSafe(s: State, st: Step)
    requires Inv(s) && CanStep(s, st) && Quiet(st) && Safe(s)
    ensures Safe(Apply(s, st))
  {
    match st
    case Go(m) => MoveStaysSafe(s, m);
    case Feed(_) => QuietFeed(s);
  }

  lemma MoveStaysSafe(s: State, m: Move)
    requires CanMove(s.cur, m) && Safe(s)
    ensures Safe(s.(cur := MoveLoop(s.router, s.cur, m)))
  {
    MoveShape(s.router, s.cur, m);
    hide MoveLoop, CanMove;
  }

  /** A move needs a call outside the channel, and takes none out of it. */
  lemma MoveShape(router: Router, l: Loop, m: Move)
    requires CanMove(l, m)
    ensures l.working != [] || l.ready != []
    ensures l.chan != [] ==> MoveLoop(router, l, m).chan != []
  {
    hide RunHandler;
    match m
    case Work(k) =>
    case Post(k) =>
    case Drop(k) =>
  }

  lemma {:induction false} QuietRunStaysSafe(s: State, more: seq<Step>)
    requires Inv(s) && Run(s, more) && Safe(s) && forall st :: st in more ==> Quiet(st)
    ensures Inv(After(s, more)) && Safe(After(s, more))
    decreases |more|
  {
    if more != [] {
      assert more[0] in more;
      QuietStepStaysSafe(s, more[0]);
      StepKeepsInv(s, more[0], false);
      QuietRunStaysSafe(Apply(s, more[0]), more[1..]);
    }
  }

  /** Exactly when a done context can leave the loop blocked for ever, the guest
      issuing nothing more: without a reported error, as soon as one launched call
      has its result outside the channel; with one, when no result is in it. */
  lemma DoneContextMayBlockIff(router: Router, steps: seq<Step>)
    requires Run(Init(router), steps)
    requires var s := After(Init(router), steps); s.looping && s.cur.cancelled
    ensures var s := After(Init(router), steps);
      MayBlock(s) <==> if s.error.None? then Outside(s) else s.cur.chan == []
  {
    var s := After(Init(router), steps);
    InitInv(router);
    RunKeepsInv(Init(router), steps, false);
    LoopShape(s);
    if Safe(s) {
      forall more: seq<Step> | Run(s, more) && forall st :: st in more ==> Quiet(st)
        ensures !(After(s, more).looping && Stuck(After(s, more)))
      {
        QuietRunStaysSafe(s, more);
        SafeIsNotStuck(After(s, more));
      }
    } else {
      OutsideMayBlock(s);
    }
  }

  lemma SafeIsNotStuck(s: State)
    requires Inv(s) && Safe(s)
    ensures !(s.looping && Stuck(s))
  {
    if s.looping {
      LoopShape(s);
      assert CanStep(s, Feed([]));
    }
  }

  // ---------------------------------------------------------------- what the code does not guarantee

  /** The loop does not watch the caller's context: one call whose goroutine sees
      the context done after its handler returned leaves it blocked for ever. */
  lemma CallerCancelCanBlockTheLoop(router: Router)
    ensures exists steps: seq<Step> ::
      Run(Init(router), steps) && After(Init(router), steps).looping && Stuck(After(Init(router), steps))
  {
    hide Inv, Stuck, Core;
    var body: Trace := [Draw("m"), Send(1, "{}")];
    var s0, st := Init(router), Begin([], true, body, true);
    OneCall(s0, "m", "{}", body);
    InitInv(router);
    StepKeepsInv(s0, st, false);
    var more := CancelThenBlocks(Apply(s0, st));
    OneMore(s0, st, more);
  }

  lemma CancelThenBlocks(s: State) returns (steps: seq<Step>)
    requires Inv(s) && s.looping && s.error.None? && Outside(s)
    ensures Run(s, steps) && After(s, steps).looping && Stuck(After(s, steps))
  {
    hide Inv, Stuck, Quiet;
    CancelKeepsInv(s);
    var t := Apply(s, Cancel);
    OutsideMayBlock(t);
    var more: seq<Step> :|
      Run(t, more) && (forall x :: x in more ==> Quiet(x)) && After(t, more).looping && Stuck(After(t, more));
    OneMore(s, Cancel, more);
    steps := [Cancel] + more;
  }

  lemma OneMore(s: State, st: Step, rest: seq<Step>)
    requires CanStep(s, st) && Run(Apply(s, st), rest)
    ensures Run(s, [st] + rest) && After(s, [st] + rest) == After(Apply(s, st), rest)
  {
    assert ([st] + rest)[1..] == rest;
  }

  lemma AllDroppedIsStuck(s: State)
    requires s.cur.working == [] && s.cur.ready == [] && s.cur.chan == []
    ensures Stuck(s)
  {
  }

  lemma OneCall(s0: State, name: string, params: string, body: Trace)
    requires s0 == Init(s0.router) && body == [Draw(name), Send(1, params)]
    ensures var s := BeginWith(s0, [], true, body, true, false);
      && s.looping && s.error.None? && s.cur.working == [Call(1, IdOf(1), name, params, 1, false)]
      && s.cur.ready == [] && s.cur.chan == [] && s.cur.dropped == []
  {
    var a := Discard(ResetState(s0), [], true, false);
    var b := Act(a, Draw(name));
    var c := Act(b, Send(1, params));
    assert body[1..] == [Send(1, params)];
    assert Acts(c, body[1..][1..]) == c;
    assert Acts(b, body[1..]) == c;
    assert Acts(a, body) == c;
  }

  /** The result is no completion signal: a script may report it while a call it
      made and did not await is still outstanding. */
  lemma ResultCanPrecedeAnswers(router: Router, json: string)
    ensures exists steps: seq<Step> ::
      Run(Init(router), steps) &&
      var s := After(Init(router), steps); s.result == Some(json) && s.looping && s.cur.inflight == 1
  {
    var rest: Trace := [Send(1, "{}"), SetResult(json)];
    var body, s0 := [Draw("m")] + rest, Init(router);
    var st := Begin([], true, body, true);
    var a := Discard(ResetState(s0), [], true, false);
    var b := Act(a, Draw("m"));
    var c := Act(b, Send(1, "{}"));
    var d := Act(c, SetResult(json));
    assert body[1..] == rest && rest[1..] == [SetResult(json)] && rest[1..][1..] == [];
    assert Acts(c, rest[1..]) == d;
    assert Acts(b, rest) == d;
    assert Acts(a, body) == d;
    OneMore(s0, st, []);
    assert After(s0, [st] + []) == Launch(d.(open := map[]));
  }

  /** The settlement functions are left on globalThis: a script may settle its own
      promise while the host still has the call, holding none that is unsettled. */
  lemma ScriptCanSettleAhead(router: Router, json: string)
    ensures exists steps: seq<Step> ::
      Run(Init(router), steps) &&
      var s := After(Init(router), steps);
      s.result == Some(json) && s.looping && s.cur.inflight == 1 && OwnEntries(s) == {}
  {
    var rest: Trace := [Send(1, "null"), ScriptSettles(IdOf(1)), SetResult(json)];
    var body, s0 := [Draw("m")] + rest, Init(router);
    var st := Begin([], true, body, true);
    var a := Discard(ResetState(s0), [], true, false);
    var b := Act(a, Draw("m"));
    var c := Act(b, Send(1, "null"));
    var d := Act(c, ScriptSettles(IdOf(1)));
    var e := Act(d, SetResult(json));
    assert body[1..] == rest && rest[1..] == [ScriptSettles(IdOf(1)), SetResult(json)];
    assert rest[1..][1..] == [SetResult(json)] && rest[1..][1..][1..] == [];
    assert Acts(d, rest[1..][1..]) == e;
    assert Acts(c, rest[1..]) == e;
    assert Acts(b, rest) == e;
    assert Acts(a, body) == e;
    assert e.table == map[];
    OneMore(s0, st, []);
    assert After(s0, [st] + []) == Launch(e.(open := map[]));
  }

  // ---------------------------------------------------------------- goroutines of a loop that has returned

  /** The context of every loop that has returned is done. */
  ghost predicate Released(s: State) {
    && (forall i :: 0 <= i < |s.past| ==> s.past[i].cancelled)
    && (s.torn ==> s.cur.cancelled)
  }

  lemma StopReleases(s: State)
    requires Released(s)
    ensures Released(StopWithError(s))
  {
  }

  lemma FeedKeepsReleased(s: State, tr: Trace)
    requires Released(s) && s.cur.chan != [] && !s.torn
    ensures Released(FeedOk(s, tr))
  {
    FedFrame(s);
    ActsFix(Fed(s), tr);
  }

  lemma BreakKeepsReleased(s: State, reached: Reached, tr: Trace)
    requires Released(s) && s.cur.chan != []
    ensures Released(FeedBroken(s, reached, tr))
  {
    BrokenKeepsPast(s, reached);
    ActsFix(Broken(s, reached), tr);
  }

  lemma BrokenKeepsPast(s: State, reached: Reached)
    requires s.cur.chan != []
    ensures Broken(s, reached).past == s.past
  {
    match reached
    case Settled => FedFrame(s);
    case _ =>
  }

  lemma BeginKeepsReleased(s: State, drain: Trace, resets: bool, body: Trace, async: bool)
    requires Released(s)
    ensures Released(BeginWith(s, drain, resets, body, async, false))
  {
    var a := ResetState(s);
    assert Released(a) && !a.torn;
    ActsFix(a.(used := false, draining := true), drain);
    ActsFix(Discard(a, drain, resets, false), body);
  }

  lemma StepKeepsReleased(s: State, st: Step)
    requires Inv(s) && Released(s) && CanStep(s, st)
    ensures Released(Apply(s, st))
  {
    hide BeginWith, FeedOk, FeedBroken, Core;
    match st
    case Begin(drain, resets, body, async) => BeginKeepsReleased(s, drain, resets, body, async);
    case Feed(tr) => FeedKeepsReleased(s, tr);
    case FeedBreaks(reached, tr) => BreakKeepsReleased(s, reached, tr);
    case Go(m) =>
    case GoPast(i, m) =>
    case _ =>
  }

  lemma {:induction false} RunKeepsReleased(s: State, steps: seq<Step>)
    requires Inv(s) && Released(s) && Run(s, steps)
    ensures Released(After(s, steps))
    decreases |steps|
  {
    if steps != [] {
      StepKeepsReleased(s, steps[0]);
      StepKeepsInv(s, steps[0], false);
      RunKeepsReleased(Apply(s, steps[0]), steps[1..]);
    }
  }

  /** No goroutine is left blocked on the channel of a loop that has returned: each
      of its finished handlers can go on past the send at once, over every run. */
  lemma ReturnedLoopsLeaveNoneBlocked(router: Router, steps: seq<Step>)
    requires Run(Init(router), steps)
    ensures var s := After(Init(router), steps);
      && (forall i, k: nat :: 0 <= i < |s.past| && k < |s.past[i].ready| ==> CanStep(s, GoPast(i, Drop(k))))
      && (!s.looping ==> forall k: nat :: k < |s.cur.ready| ==> CanStep(s, Go(Drop(k))))
  {
    var s := After(Init(router), steps);
    InitInv(router);
    RunKeepsInv(Init(router), steps, false);
    RunKeepsReleased(Init(router), steps);
    NoneBlocked(s);
  }

  lemma NoneBlocked(s: State)
    requires Inv(s) && Released(s)
    ensures forall i, k: nat :: 0 <= i < |s.past| && k < |s.past[i].ready| ==> CanStep(s, GoPast(i, Drop(k)))
    ensures !s.looping ==> forall k: nat :: k < |s.cur.ready| ==> CanStep(s, Go(Drop(k)))
  {
    IdleLoopIsDone(s);
    hide Inv;
  }

  lemma IdleLoopIsDone(s: State)
    requires Inv(s) && Released(s)
    ensures !s.looping ==> s.cur.cancelled || s.cur.ready == []
  {
    if !s.looping && !s.torn {
      EmptyBag(s.cur);
    }
  }

  function Draws(n: nat): Trace {
    seq(n, _ => Draw("b"))
  }

  lemma {:induction false} DrawMany(s: State, n: nat)
    ensures var t := Acts(s, Draws(n));
      && t.drawn == s.drawn + n
      && t == s.(drawn := t.drawn, table := t.table, open := t.open, clash := t.clash)
      && (n > 0 ==> IdOf(s.drawn + n) in t.table && t.table[IdOf(s.drawn + n)] == Entry(s.drawn + n, s.inv))
    decreases n
  {
    if n > 0 {
      assert Draws(n)[1..] == Draws(n - 1);
      DrawMany(Act(s, Draw("b")), n - 1);
    }
  }

  /** One call is launched, and n further promises were made after it. */
  lemma OneCallThenDraws(s0: State, n: nat, body: Trace)
    requires s0 == Init(s0.router) && n > 0 && body == [Draw("a")] + ([Send(1, "{}")] + Draws(n))
    ensures var s := BeginWith(s0, [], true, body, true, false);
      && s.looping && s.cur.working == [Call(1, IdOf(1), "a", "{}", 1, false)]
      && s.cur.ready == [] && s.cur.chan == [] && s.settled == []
      && IdOf(n + 1) in s.table && s.table[IdOf(n + 1)] == Entry(n + 1, 1)
  {
    var a := Discard(ResetState(s0), [], true, false);
    var b := Act(a, Draw("a"));
    var c := Act(b, Send(1, "{}"));
    var rest := [Send(1, "{}")] + Draws(n);
    assert body[1..] == rest && rest[1..] == Draws(n);
    DrawMany(c, n);
    assert Acts(b, rest) == Acts(c, Draws(n));
    assert Acts(a, body) == Acts(b, rest);
  }

  /** The id window matters: after 2^31 further promises in one invocation, the
      answer to the first call settles the promise that took over its id. */
  lemma IdReuseMisroutes(router: Router)
    ensures exists steps: seq<Step>, x ::
      Run(Init(router), steps) && x in After(Init(router), steps).settled && x.via.uid == 1 && x.uid == WINDOW + 1
  {
    SameIdIff(1, WINDOW + 1);
    MisroutedAfter(router, WINDOW);
  }

  lemma MisroutedAfter(router: Router, n: nat)
    requires n > 0 && IdOf(n + 1) == IdOf(1)
    ensures exists steps: seq<Step>, x ::
      Run(Init(router), steps) && x in After(Init(router), steps).settled && x.via.uid == 1 && x.uid == n + 1
  {
    var body := [Draw("a")] + ([Send(1, "{}")] + Draws(n));
    var s0, st := Init(router), Begin([], true, body, true);
    OneCallThenDraws(s0, n, body);
    var s1 := Apply(s0, st);
    var rest, x := AnswerTheCall(s1);
    OneMore(s0, st, rest);
  }

  /** The only launched call runs, is received and settles whatever has its id. */
  lemma AnswerTheCall(s: State) returns (steps: seq<Step>, x: Settlement)
    requires s.looping && |s.cur.working| == 1 && s.cur.ready == [] && s.cur.chan == [] && s.settled == []
    requires s.cur.working[0].id in s.table
    ensures Run(s, steps) && x in After(s, steps).settled
    ensures x.via == s.cur.working[0] && x.uid == s.table[s.cur.working[0].id].uid
  {
    var t := Apply(s, Go(Work(0)));
    var u := Apply(t, Go(Post(0)));
    assert u.cur.chan == [RunHandler(s.router, s.cur.working[0])];
    x := AnswerSettles(u);
    OneMore(u, Feed([]), []);
    OneMore(t, Go(Post(0)), [Feed([])]);
    steps := [Go(Work(0))] + ([Go(Post(0))] + [Feed([])]);
    OneMore(s, Go(Work(0)), [Go(Post(0))] + [Feed([])]);
  }

  lemma AnswerSettles(s: State) returns (x: Settlement)
    requires s.cur.chan != [] && s.settled == [] && s.cur.chan[0].call.id in s.table
    ensures x in FeedOk(s, []).settled
    ensures x.via == s.cur.chan[0].call && x.uid == s.table[s.cur.chan[0].call.id].uid
  {
    var r := s.cur.chan[0];
    x := Settlement(s.table[r.call.id].uid, s.table[r.call.id].inv, r.call, OutcomeOf(r));
    FeedSettles(s, []);
    hide FeedOk;
    assert [] + [x] == [x];
  }
}
