/** What the settlement protocol guarantees over every run: any sequence of
    invocations, guest behaviours, handler outcomes and schedules. */
module ProtocolTheorems {
  import opened Rpc
  import opened PromiseIds
  import opened Protocol
  import opened ProtocolProofs

  // ---------------------------------------------------------------- conservation

  /** In how many places a call is. */
  ghost function Places(s: State, c: Call): nat {
    multiset(s.pending)[c] + multiset(s.cur.working)[c] + multiset(Calls(s.cur.ready))[c] +
    multiset(Calls(s.cur.chan))[c] + multiset(s.cur.dropped)[c] +
    multiset(s.cur.fed)[c] + multiset(s.cur.lost)[c]
  }

  lemma PlacesOf(s: State, c: Call)
    requires Inv(s)
    ensures Places(s, c) == if c in s.queued then 1 else 0
  {
    DistinctBag(s.queued);
    assert multiset(s.queued)[c] ==
      multiset(s.pending)[c] + InFlight(s.cur)[c] + multiset(s.cur.fed)[c] + multiset(s.cur.lost)[c];
    assert c in s.queued <==> multiset(s.queued)[c] > 0;
  }

  /** Conservation: at every point of every run, each call queued in the current
      invocation is in exactly one place, nothing else is in any, and `inflight`
      is the number of launched calls that were not received; results are
      dropped only after the context is done. */
  lemma EveryCallInOnePlace(router: Router, steps: seq<Step>, c: Call)
    requires Run(Init(router), steps)
    ensures var s := After(Init(router), steps);
      && Places(s, c) == (if c in s.queued then 1 else 0)
      && s.cur.inflight == |s.cur.working| + |s.cur.ready| + |s.cur.chan| + |s.cur.dropped|
      && (s.cur.dropped != [] ==> s.cur.cancelled)
      && (s.looping ==> s.pending == [] && s.cur.inflight > 0)
  {
    var s := After(Init(router), steps);
    InitInv(router);
    RunKeepsInv(Init(router), steps, false);
    PlacesOf(s, c);
  }

  // ---------------------------------------------------------------- settlement

  /** Whatever happens, a promise is settled by the host at most once, and never if
      a script took its entry, with the answer of the handler for the call that
      settled it, and that call was queued in the promise's own invocation. */
  lemma SettledOnceAndInOwnInvocation(router: Router, steps: seq<Step>, i: nat, j: nat)
    requires Run(Init(router), steps)
    requires i <= j < |After(Init(router), steps).settled|
    ensures var log := After(Init(router), steps).settled;
      && (log[i].uid == log[j].uid ==> i == j) && log[i].uid !in After(Init(router), steps).removed
      && log[i].outcome == Answer(router, log[i].via)
      && log[i].inv == log[i].via.inv
  {
    InitInv(router);
    RunKeepsInv(Init(router), steps, false);
    RouterFixed(Init(router), steps, false);
    assert After(Init(router), steps).settled[i] in After(Init(router), steps).settled;
  }

  /** What a guest segment leaves alone, and that it queues what it sends. */
  ghost predicate Fixes(s: State, t: State) {
    && t.router == s.router && t.base == s.base && t.inv == s.inv && t.torn == s.torn && t.drawn >= s.drawn && (s.clash ==> t.clash)
    && |t.queued| - |s.queued| == |t.pending| - |s.pending| >= 0
    && t.cur == s.cur && t.settled == s.settled && t.past == s.past && t.looping == s.looping
  }

  lemma ActFixes(s: State, a: Action)
    ensures Fixes(s, Act(s, a))
  {
    hide Taken, IdOf;
    match a
    case Send(u, p) =>
    case _ =>
  }

  lemma {:induction false} ActsFix(s: State, tr: Trace)
    ensures Fixes(s, Acts(s, tr))
    decreases |tr|
  {
    if tr != [] {
      ActFixes(s, tr[0]);
      ActsFix(Act(s, tr[0]), tr[1..]);
    }
  }

  lemma BeginFixesRouter(s: State, drain: Trace, resets: bool, body: Trace, async: bool, always: bool)
    ensures BeginWith(s, drain, resets, body, async, always).router == s.router
    ensures s.clash ==> BeginWith(s, drain, resets, body, async, always).clash
  {
    ActsFix(ResetState(s).(used := false, draining := true), drain);
    ActsFix(Discard(ResetState(s), drain, resets, always), body);
  }

  lemma FeedFixesRouter(s: State, tr: Trace)
    requires s.cur.chan != []
    ensures FeedOk(s, tr).router == s.router
    ensures s.clash ==> FeedOk(s, tr).clash
  {
    FedFrame(s);
    ActsFix(Fed(s), tr);
  }

  lemma BreakFixesRouter(s: State, reached: Reached, tr: Trace)
    requires s.cur.chan != []
    ensures FeedBroken(s, reached, tr).router == s.router
    ensures s.clash ==> FeedBroken(s, reached, tr).clash
  {
    ActsFix(Broken(s, reached), tr);
  }

  lemma StepFixesRouter(s: State, st: Step, always: bool)
    requires CanStep(s, st)
    ensures Apply(s, st, always).router == s.router
    ensures s.clash ==> Apply(s, st, always).clash
  {
    match st
    case Begin(drain, resets, body, async) => BeginFixesRouter(s, drain, resets, body, async, always);
    case Feed(tr) => FeedFixesRouter(s, tr);
    case FeedBreaks(reached, tr) => BreakFixesRouter(s, reached, tr);
    case Go(m) =>
    case _ =>
  }

  lemma {:induction false} RouterFixed(s: State, steps: seq<Step>, always: bool)
    requires Run(s, steps, always)
    ensures After(s, steps, always).router == s.router
    ensures s.clash ==> After(s, steps, always).clash
    decreases |steps|
  {
    if steps != [] {
      StepFixesRouter(s, steps[0], always);
      RouterFixed(Apply(s, steps[0], always), steps[1..], always);
    }
  }

  /** What each promise settled by the host was told, whichever call settled it:
      what the call's asynchronous handler, else its synchronous one, else the
      fallback ended with when run on the call's parameters; an error or a panic as
      a rejection, an absent value as null, and no handler as a rejection too. */
  lemma SettledAsTheHandlerEnded(router: Router, steps: seq<Step>, x: Settlement)
    requires Run(Init(router), steps) && x in After(Init(router), steps).settled
    ensures
      var c := x.via;
      var run: Option<HandlerRun> :=
        if c.name in router.async then Some(router.async[c.name](c.params, c.uid))
        else if c.name in router.sync then Some(router.sync[c.name](c.params, c.uid))
        else if router.fallback.Some? then Some(router.fallback.value(c.name, c.params, c.uid))
        else None;
      match run
        case None => x.outcome == Rejected(NotRegistered(c.name))
        case Some(Panicked(what)) => x.outcome == Rejected(HandlerPanic(what))
        case Some(Returned(_, Some(text))) => x.outcome == Rejected(HandlerError(text))
        case Some(Returned(Some(json), None)) => x.outcome == Resolved(json)
        case Some(Returned(None, None)) => x.outcome == Resolved("null")
  {
    InitInv(router);
    RunKeepsInv(Init(router), steps, false);
    RouterFixed(Init(router), steps, false);
    assert x.outcome == Answer(router, x.via);
    hide Run, After, Inv, Answer;
    AnswerByHandler(router, x.via);
  }

  /** And independently of what else the method is registered as: with the other
      tables replaced, the handler that comes first gives the same outcome. */
  lemma FirstRegistrationDecides(router: Router, steps: seq<Step>, x: Settlement,
      sync: map<string, Handler>, fallback: Option<Fallback>)
    requires Run(Init(router), steps) && x in After(Init(router), steps).settled
    ensures x.via.name in router.async ==> x.outcome == Answer(router.(sync := sync, fallback := fallback), x.via)
    ensures x.via.name !in router.async && x.via.name in router.sync ==>
      x.outcome == Answer(router.(fallback := fallback), x.via)
  {
    InitInv(router);
    RunKeepsInv(Init(router), steps, false);
    RouterFixed(Init(router), steps, false);
    assert x.outcome == Answer(router, x.via);
    hide Run, After, Inv;
    if x.via.name in router.async {
      AsyncDecides(router, x.via, sync, fallback);
    } else if x.via.name in router.sync {
      SyncDecides(router, x.via, router.async, fallback);
    }
  }

  /** Without an id clash a promise is settled by its own call: the settling call
      carries the method and parameters with which the promise reached the host,
      and the outcome is that of the handler run on them. */
  lemma SettledByOwnCall(router: Router, steps: seq<Step>, x: Settlement)
    requires Run(Init(router), steps) && !After(Init(router), steps).clash
    requires x in After(Init(router), steps).settled
    ensures var sent := After(Init(router), steps).sent;
      && x.via.uid == x.uid && x.uid in sent
      && x.via.name == sent[x.uid].name && x.via.params == sent[x.uid].params
      && x.outcome == Answer(router, x.via)
  {
    InitInv(router);
    RunKeepsInv(Init(router), steps, false);
    RouterFixed(Init(router), steps, false);
  }

  /** The request recorded for a promise is the one its hostRpc call made: the
      method given to makeRpcPromise and the text of that call; neither the method
      of a promise about to be sent nor a recorded request ever changes. */
  lemma SentIsOwnRequest(s: State, a: Action, u: nat)
    requires Numbered(s) && u in Act(s, a).sent
    ensures u in s.sent ==> Act(s, a).sent[u] == s.sent[u]
    ensures u !in s.sent ==> u in s.open && a.Send? && a.uid == u && Act(s, a).sent[u] == Request(s.open[u], a.params)
    ensures forall v :: v in Act(s, a).open ==>
      if v in s.open then Act(s, a).open[v] == s.open[v] else a.Draw? && v == s.drawn + 1 && Act(s, a).open[v] == a.name
  {
    hide Taken, IdOf;
    match a
    case Send(v, p) =>
    case _ =>
  }

  /** When the service loop returns without an error, every call queued in the
      invocation, including those issued while earlier ones were settled, has
      been fed back exactly once and nothing was dropped; without an id clash
      each promise has its own answer, unless it was cleared with stale state or
      taken out of the table by the script itself. */
  lemma NilReturnSettlesEveryCall(router: Router, steps: seq<Step>, tr: Trace)
    requires Run(Init(router), steps) && CanStep(After(Init(router), steps), Feed(tr))
    requires var t := Apply(After(Init(router), steps), Feed(tr)); !t.looping && !t.torn
    ensures var t := Apply(After(Init(router), steps), Feed(tr));
      && multiset(t.cur.fed) == multiset(t.queued)
      && (forall c :: c in t.queued ==> multiset(t.cur.fed)[c] == 1)
      && t.cur.dropped == [] && t.cur.lost == [] && t.pending == []
      && (!t.clash ==> forall c :: c in t.queued && !c.stale && c.uid !in t.removed ==>
            Settlement(c.uid, t.inv, c, Answer(router, c)) in t.settled)
  {
    var s := After(Init(router), steps);
    InitInv(router);
    RunKeepsInv(Init(router), steps, false);
    RouterFixed(Init(router), steps, false);
    FeedKeepsInv(s, tr);
    FeedFixesRouter(s, tr);
    FeedEmptiesQueue(s, tr);
    AllFed(FeedOk(s, tr));
  }

  lemma FeedEmptiesQueue(s: State, tr: Trace)
    requires s.cur.chan != [] && !FeedOk(s, tr).torn
    ensures FeedOk(s, tr).pending == []
  {
  }

  lemma AllFed(t: State)
    requires Inv(t) && !t.looping && !t.torn && t.pending == []
    ensures multiset(t.cur.fed) == multiset(t.queued)
    ensures forall c :: c in t.queued ==> multiset(t.cur.fed)[c] == 1
    ensures t.cur.dropped == [] && t.cur.lost == []
    ensures !t.clash ==> forall c :: c in t.queued && !c.stale && c.uid !in t.removed ==>
      Settlement(c.uid, t.inv, c, Answer(t.router, c)) in t.settled
  {
    DistinctBag(t.queued);
    EmptyBag(t.cur);
    assert multiset(t.queued) == multiset(t.cur.fed);
    forall c | c in t.queued ensures c in t.cur.fed && multiset(t.cur.fed)[c] == 1 {
      assert c in multiset(t.queued);
    }
  }

  lemma EmptyBag(l: Loop)
    ensures |InFlight(l)| == |l.working| + |l.ready| + |l.chan| + |l.dropped|
  {
  }

  // ---------------------------------------------------------------- order of results

  /** Goroutines, the context and iterations that come back normally. */
  predicate Ongoing(st: Step) {
    st.Go? || st.GoPast? || st.Cancel? || st.Feed?
  }

  lemma MoveKeepsOrder(router: Router, l: Loop, m: Move)
    requires CanMove(l, m)
    ensures l.chan <= MoveLoop(router, l, m).chan && MoveLoop(router, l, m).fed == l.fed
    ensures m.Post? ==> MoveLoop(router, l, m).chan[|l.chan|] == l.ready[m.k]
  {
    hide RunHandler;
  }

  lemma FeedKeepsOrder(s: State, tr: Trace)
    requires s.cur.chan != []
    ensures FeedOk(s, tr).cur.chan == s.cur.chan[1..]
    ensures FeedOk(s, tr).cur.fed == s.cur.fed + [s.cur.chan[0].call]
  {
    FedLoop(s);
    ActsFix(Fed(s), tr);
    hide Fed;
  }

  lemma StepKeepsOrder(s: State, st: Step)
    requires CanStep(s, st) && Ongoing(st)
    ensures s.cur.fed + Calls(s.cur.chan) <= Apply(s, st).cur.fed + Calls(Apply(s, st).cur.chan)
    ensures !st.Feed? ==> s.cur.chan <= Apply(s, st).cur.chan && Apply(s, st).cur.fed == s.cur.fed
  {
    hide FeedOk, MoveLoop, CanMove;
    match st
    case Go(m) =>
      MoveKeepsOrder(s.router, s.cur, m);
      LongerCalls(s.cur.chan, Apply(s, st).cur.chan);
    case Feed(tr) =>
      FeedKeepsOrder(s, tr);
      FrontCall(s.cur.fed, s.cur.chan);
    case _ =>
  }

  lemma LongerCalls(a: seq<Result>, b: seq<Result>)
    requires a <= b
    ensures Calls(a) <= Calls(b)
  {
  }

  lemma FrontCall(fed: seq<Call>, chan: seq<Result>)
    requires chan != []
    ensures fed + Calls(chan) == (fed + [chan[0].call]) + Calls(chan[1..])
  {
    assert chan == [chan[0]] + chan[1..];
    CallsConcat([chan[0]], chan[1..]);
  }

  /** Results are settled in the order in which they were sent: over every further
      run of the loop, what was settled and then what was in the channel stay in
      front, and while only goroutines move the channel only grows at its end. */
  lemma {:induction false} ResultsKeepTheirOrder(s: State, steps: seq<Step>)
    requires Run(s, steps) && forall st :: st in steps ==> Ongoing(st)
    ensures var t := After(s, steps);
      && s.cur.fed + Calls(s.cur.chan) <= t.cur.fed + Calls(t.cur.chan)
      && ((forall st :: st in steps ==> !st.Feed?) ==> s.cur.chan <= t.cur.chan && t.cur.fed == s.cur.fed)
    decreases |steps|
  {
    if steps != [] {
      assert steps[0] in steps;
      assert forall st :: st in steps[1..] ==> st in steps;
      StepKeepsOrder(s, steps[0]);
      ResultsKeepTheirOrder(Apply(s, steps[0]), steps[1..]);
    }
  }

  /** An iteration that ends the loop takes the front of the channel too. */
  lemma BreakTakesTheFront(s: State, reached: Reached, tr: Trace)
    requires s.cur.chan != []
    ensures var t := FeedBroken(s, reached, tr);
      && t.cur.chan == s.cur.chan[1..]
      && t.cur.fed == (if reached == Settled then s.cur.fed + [s.cur.chan[0].call] else s.cur.fed)
      && t.cur.lost == (if reached == Settled then s.cur.lost else s.cur.lost + [s.cur.chan[0].call])
  {
    BrokenTakesTheFront(s, reached);
    ActsFix(Broken(s, reached), tr);
    hide Broken;
  }

  lemma BrokenTakesTheFront(s: State, reached: Reached)
    requires s.cur.chan != []
    ensures var t := Broken(s, reached);
      && t.cur.chan == s.cur.chan[1..]
      && t.cur.fed == (if reached == Settled then s.cur.fed + [s.cur.chan[0].call] else s.cur.fed)
      && t.cur.lost == (if reached == Settled then s.cur.lost else s.cur.lost + [s.cur.chan[0].call])
  {
    match reached
    case Settled => FedLoop(s);
    case _ =>
  }

  // ---------------------------------------------------------------- when the loop runs

  /** The channel takes a sixteenth result and not a seventeenth. */
  lemma {:induction false} ChannelHoldsSixteen(s: State, steps: seq<Step>, k: nat)
    requires Run(s, steps) && |s.cur.chan| <= 16
    ensures var t := After(s, steps);
      |t.cur.chan| <= 16 && (CanStep(t, Go(Post(k))) <==> k < |t.cur.ready| && |t.cur.chan| < 16)
    decreases |steps|
  {
    if steps != [] {
      StepBoundsChannel(s, steps[0]);
      ChannelHoldsSixteen(Apply(s, steps[0]), steps[1..], k);
    }
  }

  lemma StepBoundsChannel(s: State, st: Step)
    requires CanStep(s, st) && |s.cur.chan| <= 16
    ensures |Apply(s, st).cur.chan| <= 16
  {
    hide BeginWith, FeedOk, FeedBroken, RunHandler;
    match st
    case Feed(tr) => FeedKeepsOrder(s, tr);
    case FeedBreaks(reached, tr) => BreakTakesTheFront(s, reached, tr);
    case Begin(drain, resets, body, async) => BeginEmptiesChannel(s, drain, resets, body, async);
    case Go(m) =>
    case _ =>
  }

  lemma BeginEmptiesChannel(s: State, drain: Trace, resets: bool, body: Trace, async: bool)
    ensures BeginWith(s, drain, resets, body, async, false).cur.chan == []
  {
    var a := ResetState(s);
    ActsFix(a.(used := false, draining := true), drain);
    ActsFix(Discard(a, drain, resets, false), body);
  }

  /** Exactly when an invocation has a service loop: it is asynchronous and queued a
      call. A synchronous one leaves its calls queued and launches none. */
  lemma StartsLoopIff(s: State, drain: Trace, resets: bool, body: Trace, async: bool)
    requires Inv(s) && !s.looping
    ensures var t := BeginWith(s, drain, resets, body, async, false);
      && (t.looping <==> async && t.queued != [])
      && t.cur.working == (if async then t.queued else []) && t.pending == (if async then [] else t.queued)
  {
    var d := Discard(ResetState(s), drain, resets, false);
    DiscardQueue(ResetState(s), drain, resets);
    QueueOf(d, body);
    ActsFix(d, body);
    hide Discard, Acts, Inv;
    var x := Segment(d, body);
    assert x.pending == x.queued && x.cur == EmptyLoop() && !x.looping;
    hide Segment;
    assert [] + x.pending == x.pending;
  }

  lemma DiscardQueue(s: State, drain: Trace, resets: bool)
    requires s.pending == s.queued
    ensures var t := Discard(s, drain, resets, false);
      t.pending == t.queued && t.cur == s.cur && t.looping == s.looping
  {
    QueueOf(s.(used := false, draining := true), drain);
    ActsFix(s.(used := false, draining := true), drain);
  }

  lemma ActQueues(s: State, a: Action)
    requires s.pending == s.queued
    ensures Act(s, a).pending == Act(s, a).queued
  {
    hide Taken, IdOf;
    match a
    case Send(u, p) =>
    case _ =>
  }

  lemma {:induction false} QueueOf(s: State, tr: Trace)
    requires s.pending == s.queued
    ensures Acts(s, tr).pending == Acts(s, tr).queued
    decreases |tr|
  {
    if tr != [] {
      ActQueues(s, tr[0]);
      QueueOf(Act(s, tr[0]), tr[1..]);
    }
  }

  /** Exactly when the loop goes on after an iteration: the settlement export came
      back, no error is held, and a call is launched or in flight. Calls queued by
      an iteration that ends the loop with an error are never launched. */
  lemma LoopGoesOnIff(s: State, tr: Trace)
    requires s.cur.chan != []
    ensures var x, t := Segment(Fed(s), tr), FeedOk(s, tr);
      && (t.looping <==> x.error.None? && s.cur.inflight - 1 + |x.pending| > 0)
      && (x.error.Some? ==> t.cur.working == s.cur.working && t.pending == x.pending && t.cur.cancelled)
      && (x.error.None? ==> t.cur.working == s.cur.working + x.pending && t.pending == [])
  {
    FedLoop(s);
    ActsFix(Fed(s), tr);
    hide Fed;
  }

  // ---------------------------------------------------------------- moments of a run

  /** A moment at which a run can be looked at: between exports, or inside one
      after the guest has performed `sofar`. */
  datatype Moment =
    | Between
    | InBody(drain: Trace, resets: bool, sofar: Trace)
    | InFeed(sofar: Trace)

  ghost predicate Possible(s: State, m: Moment) {
    match m
    case Between => true
    case InBody(_, _, _) => !s.looping
    case InFeed(_) => s.looping && s.cur.chan != []
  }

  ghost function Seen(s: State, m: Moment): State
    requires Possible(s, m)
  {
    match m
    case Between => s
    case InBody(drain, resets, sofar) => Acts(Discard(ResetState(s), drain, resets, false), sofar)
    case InFeed(sofar) => Acts(Fed(s), sofar)
  }

  lemma SeenCore(router: Router, steps: seq<Step>, m: Moment)
    requires Run(Init(router), steps) && Possible(After(Init(router), steps), m)
    ensures Core(Seen(After(Init(router), steps), m))
    ensures !m.Between? ==> !Seen(After(Init(router), steps), m).torn
  {
    var s := After(Init(router), steps);
    InitInv(router);
    RunKeepsInv(Init(router), steps, false);
    match m
    case Between =>
    case InBody(drain, resets, sofar) =>
      ResetKeepsInv(s);
      DiscardKeepsCore(ResetState(s), drain, resets, false);
      ActsKeepCore(Discard(ResetState(s), drain, resets, false), sofar);
    case InFeed(sofar) =>
      FedKeepsCore(s);
      FedFrame(s);
      ActsKeepCore(Fed(s), sofar);
  }

  // ---------------------------------------------------------------- agreement of the two tables

  /** The unsettled promises of the table whose call reached the host. */
  ghost function SentEntries(s: State): set<nat> {
    set k | k in s.table && s.table[k].uid in s.sent :: s.table[k].uid
  }

  /** Those of them that were made in this invocation. */
  ghost function OwnEntries(s: State): set<nat> {
    set k | k in s.table && s.table[k].uid in s.sent && s.table[k].inv == s.inv :: s.table[k].uid
  }

  ghost function LiveUids(s: State): set<nat> {
    set c | c in Live(s) :: c.uid
  }

  lemma CoreAgrees(s: State)
    requires Core(s) && !s.torn
    ensures OwnEntries(s) <= LiveUids(s) && (s.cleaned ==> SentEntries(s) == OwnEntries(s))
    ensures !s.clash ==> forall c :: c in Live(s) ==>
      && (c.uid in OwnEntries(s) <==> c.id in s.table)
      && (!c.stale && c.uid !in s.removed ==> c.uid in OwnEntries(s))
      && (c.uid in s.removed ==> c.uid !in OwnEntries(s))
  {
    LiveAreQueued(s);
    if !s.clash {
      forall c | c in Live(s)
        ensures c.uid in OwnEntries(s) <==> c.id in s.table
        ensures !c.stale && c.uid !in s.removed ==> c.uid in OwnEntries(s)
        ensures c.uid in s.removed ==> c.uid !in OwnEntries(s)
      {
        if c.id in s.table {
          assert s.table[c.id].uid == c.uid;
        }
        assert forall k :: k in s.table && s.table[k].uid == c.uid ==> k == c.id;
      }
    }
  }

  /** Between exports and inside them, while no error has cut the invocation short:
      every entry of this invocation whose call reached the host is an outstanding
      call of the host, and after a clean-up there are no others; without an id
      clash the two sets are equal up to calls issued by the drain and calls whose
      entry a script took out. */
  lemma TablesAgree(router: Router, steps: seq<Step>, m: Moment)
    requires Run(Init(router), steps) && Possible(After(Init(router), steps), m)
    requires !Seen(After(Init(router), steps), m).torn
    ensures var s := Seen(After(Init(router), steps), m);
      && OwnEntries(s) <= LiveUids(s)
      && (s.cleaned ==> SentEntries(s) == OwnEntries(s))
      && (!s.clash ==> forall c :: c in Live(s) ==>
            && (c.uid in OwnEntries(s) <==> c.id in s.table)
            && (!c.stale && c.uid !in s.removed ==> c.uid in OwnEntries(s))
            && (c.uid in s.removed ==> c.uid !in OwnEntries(s)))
      && (!s.clash && (forall c :: c in Live(s) ==> !c.stale && c.uid !in s.removed) ==> OwnEntries(s) == LiveUids(s))
  {
    SeenCore(router, steps, m);
    var s := Seen(After(Init(router), steps), m);
    CoreAgrees(s);
    LiveAreQueued(s);
  }

  /** Exactly when a reported result means that no call is pending: at any moment
      of an export the host has nothing outstanding if and only if the script holds
      no unsettled promise whose call reached the host, the drain left no call, and
      the script took no entry out whose call is still outstanding. */
  lemma ResultIsFinalIff(router: Router, steps: seq<Step>, m: Moment, json: string)
    requires Run(Init(router), steps) && Possible(After(Init(router), steps), m) && !m.Between?
    requires !Seen(After(Init(router), steps), m).clash
    ensures var s := Seen(After(Init(router), steps), m);
      var t := Act(s, SetResult(json));
      && t.result == Some(json)
      && (Live(t) == multiset{} <==> OwnEntries(s) == {} && forall c :: c in Live(s) ==> !c.stale && c.uid !in s.removed)
  {
    SeenCore(router, steps, m);
    hide Seen, Possible, Core, Run, After;
    var s := Seen(After(Init(router), steps), m);
    var t := Act(s, SetResult(json));
    CoreAgrees(s);
    assert Live(t) == Live(s);
    if OwnEntries(s) == {} && forall c :: c in Live(s) ==> !c.stale && c.uid !in s.removed {
      forall c ensures c !in Live(s) {
        assert c.uid !in OwnEntries(s);
      }
    }
    if Live(s) == multiset{} {
      assert LiveUids(s) == {};
    }
  }

  // ---------------------------------------------------------------- the id window

  /** With an exact counter, a draw takes an id in use exactly when some outstanding
      or unsent promise is a multiple of 2^31 draws old. */
  lemma ClashIff(s: State, name: string)
    requires Numbered(s) && Conserved(s) && !s.clash && s.drawn + 1 <= MAX_EXACT
    ensures DoDraw(s, name).clash <==>
      || (exists c :: c in Live(s) && (s.drawn + 1 - c.uid) % WINDOW == 0)
      || (exists u :: u in s.open && (s.drawn + 1 - u) % WINDOW == 0)
  {
    LiveAreQueued(s);
    forall c | c in Live(s) ensures c.id == IdOf(s.drawn + 1) <==> (s.drawn + 1 - c.uid) % WINDOW == 0 {
      SameIdIff(c.uid, s.drawn + 1);
    }
    forall u | u in s.open ensures IdOf(u) == IdOf(s.drawn + 1) <==> (s.drawn + 1 - u) % WINDOW == 0 {
      SameIdIff(u, s.drawn + 1);
    }
  }

  /** A clash needs an outstanding or unsent promise at least 2^31 draws old, or
      a counter past 2^53. */
  lemma ClashNeedsFullWindow(s: State, name: string)
    requires Numbered(s) && Conserved(s) && !s.clash && DoDraw(s, name).clash
    ensures
      || s.drawn + 1 > MAX_EXACT
      || (exists c :: c in Live(s) && s.drawn + 1 - c.uid >= WINDOW)
      || (exists u :: u in s.open && s.drawn + 1 - u >= WINDOW)
  {
    LiveAreQueued(s);
    if s.drawn + 1 <= MAX_EXACT {
      ClashIff(s, name);
      if c :| c in Live(s) && (s.drawn + 1 - c.uid) % WINDOW == 0 {
        AgeAtLeastWindow(s.drawn + 1 - c.uid);
      } else {
        var u :| u in s.open && (s.drawn + 1 - u) % WINDOW == 0;
        AgeAtLeastWindow(s.drawn + 1 - u);
      }
    }
  }

  lemma AgeAtLeastWindow(age: int)
    requires age > 0 && age % WINDOW == 0
    ensures age >= WINDOW
  {
  }

  /** The next draw is exact, and fewer than 2^31 ids will have been drawn since
      the oldest outstanding or unsent promise. */
  ghost predicate Young(s: State) {
    && s.drawn + 1 <= MAX_EXACT
    && (forall c :: c in Live(s) ==> s.drawn + 1 - c.uid < WINDOW)
    && (forall u :: u in s.open ==> s.drawn + 1 - u < WINDOW)
  }

  ghost predicate YoungActs(s: State, tr: Trace)
    decreases |tr|
  {
    tr == [] || ((tr[0].Draw? ==> Young(s)) && YoungActs(Act(s, tr[0]), tr[1..]))
  }

  ghost predicate YoungStep(s: State, st: Step)
    requires CanStep(s, st)
  {
    match st
    case Begin(drain, resets, body, _) =>
      && (s.used ==> YoungActs(ResetState(s).(used := false, draining := true), drain))
      && YoungActs(Discard(ResetState(s), drain, resets, false), body)
    case Feed(tr) => YoungActs(Fed(s), tr)
    case FeedBreaks(reached, tr) => YoungActs(Broken(s, reached), tr)
    case _ => true
  }

  /** Every draw of the run is young when it is made. */
  ghost predicate YoungRun(s: State, steps: seq<Step>)
    requires Run(s, steps)
    decreases |steps|
  {
    steps != [] ==> YoungStep(s, steps[0]) && YoungRun(Apply(s, steps[0]), steps[1..])
  }

  lemma YoungActNeverClashes(s: State, a: Action)
    requires Numbered(s) && Conserved(s) && !s.clash && (a.Draw? ==> Young(s))
    ensures !Act(s, a).clash
  {
    if a.Draw? && DoDraw(s, a.name).clash {
      ClashNeedsFullWindow(s, a.name);
    }
  }

  lemma {:induction false} YoungActsNeverClash(s: State, tr: Trace)
    requires Core(s) && !s.clash && YoungActs(s, tr)
    ensures !Acts(s, tr).clash
    decreases |tr|
  {
    if tr != [] {
      YoungActNeverClashes(s, tr[0]);
      ActKeepsCore(s, tr[0]);
      YoungActsNeverClash(Act(s, tr[0]), tr[1..]);
    }
  }

  lemma YoungDiscard(s: State, drain: Trace, resets: bool)
    requires Inv(s) && !s.torn && Live(s) == multiset{} && !s.looping && s.cur == EmptyLoop() && !s.clash
    requires s.used ==> YoungActs(s.(used := false, draining := true), drain)
    ensures !Discard(s, drain, resets, false).clash
  {
    if s.used {
      var a := s.(used := false, draining := true);
      assert Live(a) == Live(s);
      YoungActsNeverClash(a, drain);
    }
  }

  lemma YoungBegin(s: State, drain: Trace, resets: bool, body: Trace, async: bool)
    requires Inv(s) && !s.clash && !s.looping && YoungStep(s, Begin(drain, resets, body, async))
    ensures !BeginWith(s, drain, resets, body, async, false).clash
  {
    ResetKeepsInv(s);
    YoungDiscard(ResetState(s), drain, resets);
    DiscardKeepsCore(ResetState(s), drain, resets, false);
    YoungActsNeverClash(Discard(ResetState(s), drain, resets, false), body);
  }

  lemma YoungFeed(s: State, tr: Trace)
    requires Inv(s) && !s.clash && s.looping && s.cur.chan != [] && YoungActs(Fed(s), tr)
    ensures !FeedOk(s, tr).clash
  {
    FedKeepsCore(s);
    FedFrame(s);
    YoungActsNeverClash(Fed(s), tr);
    hide Fed, Core, Inv, YoungActs;
  }

  lemma BrokenKeepsClash(s: State, reached: Reached)
    requires s.cur.chan != []
    ensures Broken(s, reached).clash == s.clash
  {
  }

  lemma YoungBreak(s: State, reached: Reached, tr: Trace)
    requires Inv(s) && !s.clash && s.looping && s.cur.chan != [] && YoungActs(Broken(s, reached), tr)
    ensures !FeedBroken(s, reached, tr).clash
  {
    BrokenKeepsCore(s, reached);
    BrokenKeepsClash(s, reached);
    YoungActsNeverClash(Broken(s, reached), tr);
    hide Broken, Core, Inv, YoungActs;
  }

  lemma YoungStepNeverClashes(s: State, st: Step)
    requires Inv(s) && !s.clash && CanStep(s, st) && YoungStep(s, st)
    ensures !Apply(s, st).clash
  {
    hide Inv, YoungActs, BeginWith, FeedOk, FeedBroken;
    match st
    case Begin(drain, resets, body, async) => YoungBegin(s, drain, resets, body, async);
    case Feed(tr) => YoungFeed(s, tr);
    case FeedBreaks(reached, tr) => YoungBreak(s, reached, tr);
    case Go(m) =>
    case _ =>
  }

  /** While every id is drawn before 2^31 others were since the oldest outstanding
      or unsent promise (and the counter stays below 2^53), no id ever clashes,
      however many ids an invocation draws, over any number of invocations. */
  lemma {:induction false} YoungRunNeverClashes(s: State, steps: seq<Step>)
    requires Inv(s) && !s.clash && Run(s, steps) && YoungRun(s, steps)
    ensures !After(s, steps).clash
    decreases |steps|
  {
    if steps != [] {
      StepKeepsInv(s, steps[0], false);
      YoungStepNeverClashes(s, steps[0]);
      YoungRunNeverClashes(Apply(s, steps[0]), steps[1..]);
    }
  }

  // ---------------------------------------------------------------- exactly when an answer is misrouted

  /** A table entry is that of the last promise made with its id. */
  ghost predicate Latest(s: State) {
    forall k, u :: k in s.table && s.table[k].uid < u <= s.drawn ==> IdOf(u) != k
  }

  lemma ActKeepsLatest(s: State, a: Action)
    requires Latest(s)
    ensures Latest(Act(s, a))
  {
    if a.Draw? {
      var t := DoDraw(s, a.name);
      forall k, u | k in t.table && t.table[k].uid < u <= t.drawn ensures IdOf(u) != k {
        assert k in s.table && s.table[k] == t.table[k];
      }
    }
  }

  lemma {:induction false} ActsKeepLatest(s: State, tr: Trace)
    requires Latest(s)
    ensures Latest(Acts(s, tr))
    decreases |tr|
  {
    if tr != [] {
      ActKeepsLatest(s, tr[0]);
      ActsKeepLatest(Act(s, tr[0]), tr[1..]);
    }
  }

  lemma BeginKeepsLatest(s: State, drain: Trace, resets: bool, body: Trace, async: bool)
    requires Latest(s)
    ensures Latest(BeginWith(s, drain, resets, body, async, false))
  {
    var a := ResetState(s);
    ActsKeepLatest(a.(used := false, draining := true), drain);
    ActsKeepLatest(Discard(a, drain, resets, false), body);
  }

  lemma BreakKeepsLatest(s: State, reached: Reached, tr: Trace)
    requires Latest(s) && s.cur.chan != []
    ensures Latest(FeedBroken(s, reached, tr))
  {
    BrokenKeepsLatest(s, reached);
    ActsKeepLatest(Broken(s, reached), tr);
  }

  lemma BrokenKeepsLatest(s: State, reached: Reached)
    requires Latest(s) && s.cur.chan != []
    ensures Latest(Broken(s, reached))
  {
    match reached
    case Settled => FedFrame(s);
    case _ =>
  }

  lemma FeedKeepsLatest(s: State, tr: Trace)
    requires Latest(s) && s.cur.chan != []
    ensures Latest(FeedOk(s, tr))
  {
    FedFrame(s);
    ActsKeepLatest(Fed(s), tr);
  }

  lemma StepKeepsLatest(s: State, st: Step)
    requires Latest(s) && CanStep(s, st)
    ensures Latest(Apply(s, st))
  {
    match st
    case Begin(drain, resets, body, async) => BeginKeepsLatest(s, drain, resets, body, async);
    case Feed(tr) => FeedKeepsLatest(s, tr);
    case FeedBreaks(reached, tr) => BreakKeepsLatest(s, reached, tr);
    case Go(m) =>
    case _ =>
  }

  lemma {:induction false} RunKeepsLatest(s: State, steps: seq<Step>)
    requires Latest(s) && Run(s, steps)
    ensures Latest(After(s, steps))
    decreases |steps|
  {
    if steps != [] {
      StepKeepsLatest(s, steps[0]);
      RunKeepsLatest(Apply(s, steps[0]), steps[1..]);
    }
  }

  /** Whether this iteration's settlement function got as far as the promise. */
  predicate Settles(st: Step) {
    st.Feed? || (st.FeedBreaks? && st.reached == Settled)
  }

  lemma FeedSettles(s: State, tr: Trace)
    requires s.cur.chan != []
    ensures FeedOk(s, tr).settled == s.settled + Told(s.table, s.cur.chan[0])
  {
    ActsFix(Fed(s), tr);
  }

  lemma BreakSettles(s: State, reached: Reached, tr: Trace)
    requires s.cur.chan != []
    ensures FeedBroken(s, reached, tr).settled ==
      if reached == Settled then s.settled + Told(s.table, s.cur.chan[0]) else s.settled
  {
    ActsFix(Broken(s, reached), tr);
  }

  /** Exactly when an answer is misrouted: an iteration whose answer finds an entry
      settles one promise if its settlement function got that far and none
      otherwise, and that promise is the call's own if and only if fewer than 2^31
      promises were made since (with the counter still exact). */
  lemma AnswerReachesItsOwnPromiseIff(router: Router, steps: seq<Step>, st: Step)
    requires Run(Init(router), steps) && CanStep(After(Init(router), steps), st) && (st.Feed? || st.FeedBreaks?)
    requires var s := After(Init(router), steps);
      s.cur.chan[0].call.id in s.table && s.drawn <= MAX_EXACT
    ensures var s := After(Init(router), steps);
      var c, log := s.cur.chan[0].call, Apply(s, st).settled;
      && s.settled <= log && |log| == |s.settled| + (if Settles(st) then 1 else 0)
      && (Settles(st) ==> c.uid <= s.drawn && (log[|s.settled|].uid == c.uid <==> s.drawn - c.uid < WINDOW))
  {
    var s := After(Init(router), steps);
    InitInv(router);
    RunKeepsInv(Init(router), steps, false);
    RunKeepsLatest(Init(router), steps);
    match st {
      case Feed(tr) => FeedSettles(s, tr);
      case FeedBreaks(reached, tr) => BreakSettles(s, reached, tr);
    }
    hide FeedOk, FeedBroken, Inv;
    var c := s.cur.chan[0].call;
    var e := s.table[c.id].uid;
    FedClears(s);
    assert c in s.queued && c.uid <= s.drawn;
    OwnIffRecent(c.uid, e, s.drawn);
  }

  lemma OwnIffRecent(own: nat, last: nat, drawn: nat)
    requires own <= drawn && last <= drawn <= MAX_EXACT && IdOf(own) == IdOf(last)
    requires forall u :: last < u <= drawn ==> IdOf(u) != IdOf(last)
    ensures last == own <==> drawn - own < WINDOW
  {
    if own < last {
      SameIdIff(own, last);
    } else {
      SameIdIff(own, own + WINDOW);
    }
  }
}
