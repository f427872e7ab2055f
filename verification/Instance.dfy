/** The Instance and the guest behind it, updated in place as kafig-go/instance.go
    and kafig-runtime/src/tracking.rs do, proved to take the protocol's steps. */
module Instance {
  import opened Rpc
  import opened PromiseIds
  import opened Protocol
  import opened ProtocolProofs
  import opened ProtocolTheorems
  import opened ProtocolLiveness
  import opened PromiseTable
  import opened CallQueue
  import opened Goroutines
  import opened Reports
  import ErrorWire

  /** The locals of a makeRpcPromise call that has not reached hostRpc. */
  datatype Frame = Frame(id: nat, name: string)

  /** What the guest does when one result is fed back: the payload cannot be
      allocated; the settlement function throws, is reported as `text`, and no job
      is run; the export traps; or it settles a promise and performs a trace. */
  datatype Response =
    | OutOfMemory
    | Throws(reached: Reached, tr: Trace, text: string)
    | Traps(reached: Reached, tr: Trace)
    | Behaves(tr: Trace)

  /** What serviceRPCLoop returns, if it does. */
  datatype LoopReturn = Nil | ScriptError(text: string) | FeedError | BlockedForever

  class Instance {
    const router: Router
    // instance.go
    const pendingRPCs: Slice
    var hasError: bool
    var scriptError: string
    var hasResult: bool
    var resultValue: string
    // the guest: prelude.js, its call stack, tracking.rs
    const js: Prelude
    var frames: map<nat, Frame>
    var promises: nat
    var usedRpcCalls: bool
    var draining: bool
    var invocation: nat
    /** The protocol state this object is in. */
    ghost var st: State

    /** The concrete fields are those of the protocol state. */
    ghost predicate Valid()
      reads this, js, pendingRPCs, pendingRPCs.backing
    {
      && pendingRPCs.Valid() && js.Valid()
      && st.router == router
      && st.pending == pendingRPCs.Contents()
      && st.error == (if hasError then Some(scriptError) else None)
      && st.result == (if hasResult then Some(resultValue) else None)
      && st.table == js.pendingRpcs && st.settled == js.settled
      && js.nextRpcId == CounterAt(promises + 1) && st.drawn == promises
      && st.open.Keys == frames.Keys
      && (forall u :: u in frames ==> frames[u] == Frame(IdOf(u), st.open[u]))
      && st.used == usedRpcCalls && st.draining == draining && st.inv == invocation
    }

    /** What Valid() reads besides the object itself. */
    ghost function Footprint(): set<object>
      reads this, pendingRPCs
    {
      {this, js, pendingRPCs, pendingRPCs.backing}
    }

    constructor (router: Router)
      ensures Valid() && st == Init(router) && fresh(Footprint())
    {
      this.router := router;
      pendingRPCs := new Slice();
      hasError, scriptError, hasResult, resultValue := false, "", false, "";
      js := new Prelude();
      frames, promises, usedRpcCalls, draining, invocation := map[], 0, false, false, 0;
      st := Init(router);
    }

    method HostRPC(c: Call)
      requires pendingRPCs.Valid()
      modifies pendingRPCs, pendingRPCs.backing
      ensures pendingRPCs.Valid() && pendingRPCs.Contents() == old(pendingRPCs.Contents()) + [c]
      ensures pendingRPCs.backing == old(pendingRPCs.backing) || fresh(pendingRPCs.backing)
    {
      pendingRPCs.Append(c);
    }

    method HostSetResult(text: string, isError: bool)
      modifies this`hasError, this`scriptError, this`hasResult, this`resultValue
      ensures if isError then hasError && scriptError == text && hasResult == old(hasResult) && resultValue == old(resultValue)
              else hasResult && resultValue == text && hasError == old(hasError) && scriptError == old(scriptError)
    {
      if isError {
        scriptError, hasError := text, true;
      } else {
        resultValue, hasResult := text, true;
      }
    }

    /** makeRpcPromise up to its call of hostRpc. */
    method MakeRpcPromise(name: string)
      requires Valid()
      modifies this, js
      ensures Valid() && st == DoDraw(old(st), name)
    {
      hide Taken, IdOf;
      promises := promises + 1;
      var id := js.MakeRpcPromise(Entry(promises, invocation));
      frames := frames[promises := Frame(id, name)];
      st := DoDraw(st, name);
    }

    /** The native bridge: flag, then host_rpc. */
    method CallHost(u: nat, params: string)
      requires Valid() && u in frames
      modifies this, pendingRPCs, pendingRPCs.backing
      ensures Valid() && st == DoSend(old(st), u, params)
      ensures pendingRPCs.backing == old(pendingRPCs.backing) || fresh(pendingRPCs.backing)
    {
      var f := frames[u];
      frames := frames - {u};
      usedRpcCalls := true;
      HostRPC(Call(u, f.id, f.name, params, invocation, draining));
      st := DoSend(st, u, params);
    }

    /** One guest action. */
    method Perform(a: Action)
      requires Valid()
      modifies Footprint()
      ensures Valid() && st == Act(old(st), a) && fresh(Footprint() - old(Footprint()))
    {
      hide Taken, IdOf;
      match a {
        case Draw(name) =>
          MakeRpcPromise(name);
        case Send(u, params) =>
          if u in frames {
            CallHost(u, params);
          }
        case SetResult(text) =>
          Report(text, false);
        case SetError(text) =>
          Report(text, true);
        case ScriptSettles(id) =>
          var found := js.ScriptSettles(id);
          st := ScriptRemoves(st, {id});
        case ScriptResets =>
          js.Reset();
          st := ScriptRemoves(st, st.table.Keys);
      }
    }

    /** host_set_result, from inside the guest. */
    method Report(text: string, isError: bool)
      requires Valid()
      modifies this
      ensures Valid() && st == Act(old(st), if isError then SetError(text) else SetResult(text))
    {
      HostSetResult(text, isError);
      st := if isError then st.(error := Some(text)) else st.(result := Some(text));
    }

    /** A guest segment: every action of the trace, then all frames are gone. */
    method Execute(tr: Trace)
      requires Valid()
      modifies Footprint()
      ensures Valid() && st == Segment(old(st), tr) && fresh(Footprint() - old(Footprint()))
    {
      hide Act, IdOf, Segment;
      var i := 0;
      while i < |tr|
        invariant i <= |tr| && Valid() && Acts(st, tr[i..]) == Acts(old(st), tr)
        invariant fresh(Footprint() - old(Footprint()))
      {
        ActsNext(st, tr, i);
        Perform(tr[i]);
        i := i + 1;
      }
      SegmentEnds(old(st), tr, st);
      frames := map[];
      st := st.(open := map[]);
    }

    method DiscardStaleState(drain: Trace, resets: bool)
      requires Valid() && st.open == map[]
      modifies Footprint()
      ensures Valid() && st == Discard(old(st), drain, resets, false) && fresh(Footprint() - old(Footprint()))
    {
      if !usedRpcCalls {
        st := st.(cleaned := !st.leaked);
        return;
      }
      hide Segment, Acts;
      usedRpcCalls, draining := false, true;
      st := st.(used := false, draining := true);
      Execute(drain);
      ResetGuest(resets);
    }

    /** The end of the drain: interrupts off, then __reset, whose failure is ignored. */
    method ResetGuest(resets: bool)
      requires Valid()
      modifies this, js
      ensures Valid()
      ensures st == old(st).(draining := false, table := if resets then map[] else old(st).table, leaked := !resets, cleaned := resets)
    {
      draining := false;
      if resets {
        js.Reset();
      }
      st := st.(draining := false, table := if resets then map[] else st.table, leaked := !resets, cleaned := resets);
    }

    method ResetForInvocation()
      requires Valid()
      modifies this, pendingRPCs
      ensures Valid() && st == ResetState(old(st)) && pendingRPCs.backing == old(pendingRPCs.backing)
    {
      hasError, scriptError, hasResult, resultValue := false, "", false, "";
      pendingRPCs.Truncate();
      invocation := invocation + 1;
      st := ResetState(st);
    }

    /** launchPendingRPCs: the batch aliases the truncated queue's array, but every
        call is handed to its goroutine before the guest can append again. */
    method LaunchPendingRPCs(pool: Pool) returns (launched: nat)
      requires Valid()
      modifies pendingRPCs`len, pool`working
      ensures pendingRPCs.Valid() && pendingRPCs.Contents() == []
      ensures pool.working == old(pool.working) + old(pendingRPCs.Contents())
      ensures launched == |old(pendingRPCs.Contents())|
    {
      var batch, n := pendingRPCs.backing, pendingRPCs.len;
      pendingRPCs.Truncate();
      var i := 0;
      while i < n
        invariant i <= n <= batch.Length && batch == old(pendingRPCs.backing) && pendingRPCs.len == 0
        invariant pool.working == old(pool.working) + batch[..i]
      {
        pool.Spawn(batch[i]);
        i := i + 1;
      }
      launched := n;
    }

    /** resolveRPC / rejectRPC; not ok if they return an error. */
    method FeedBack(r: Result, resp: Response) returns (ok: bool)
      requires Valid() && st.cur.chan != [] && st.cur.chan[0] == r && st.open == map[]
      modifies Footprint()
      ensures Valid() && fresh(Footprint() - old(Footprint())) && ok == !(resp.OutOfMemory? || resp.Traps?)
      ensures st == FedBack(old(st), resp)
      ensures resp.Behaves? ==> st.cur.working == old(st).cur.working
    {
      hide Segment, Acts;
      ok := !(resp.OutOfMemory? || resp.Traps?);
      if resp.OutOfMemory? {
        NothingReached(st);
        st := Broken(st, Untouched);
        return;
      }
      if resp.Behaves? {
        SettleInGuest(r);
        SegmentFrame(st, resp.tr);
      } else {
        SettlePartly(r, ReachedBy(resp));
      }
      Execute(TraceOf(resp));
    }

    /** The settlement function came back normally. */
    method SettleInGuest(r: Result)
      requires Valid() && st.cur.chan != [] && st.cur.chan[0] == r
      modifies this`st, js
      ensures Valid() && st == Fed(old(st)) && st.cur.working == old(st).cur.working
    {
      FedTable(st);
      js.SettleRpc(r, Settled);
      st := Fed(st);
    }

    /** It threw or trapped on its way. */
    method SettlePartly(r: Result, reached: Reached)
      requires Valid() && st.cur.chan != [] && st.cur.chan[0] == r
      modifies this`st, js
      ensures Valid() && st == Broken(old(st), reached)
    {
      BrokenTable(st, reached);
      js.SettleRpc(r, reached);
      st := Broken(st, reached);
    }

    /** How many actions the guest has left. */
    static function Remaining(script: seq<Response>, i: nat): nat
      decreases |script| - i
    {
      if i >= |script| then 0
      else (if script[i].Behaves? then |script[i].tr| else 0) + Remaining(script, i + 1)
    }

    /** Feed a received result back, stop on an error, launch what the guest
        queued meanwhile. */
    method Iterate(pool: Pool, r: Result, resp: Response) returns (stop: Option<LoopReturn>, launched: nat)
      requires Valid() && st.open == map[] && pool !in Footprint()
      requires st.cur.chan != [] && st.cur.chan[0] == r && pool.Matches(st.cur.(chan := st.cur.chan[1..]))
      modifies Footprint(), pool`working
      ensures Valid() && fresh(Footprint() - old(Footprint()))
      ensures st == FeedResponse(old(st), resp) && stop == Stops(old(st), resp)
      ensures stop.None? ==> resp.Behaves? && launched == |Segment(Fed(old(st)), resp.tr).pending|
      ensures stop.None? ==> pool.working == st.cur.working
    {
      hide Segment, Acts;
      var ok := FeedBack(r, resp);
      if !ok {
        st := StopWithError(st);
        return Some(FeedError), 0;
      }
      ThrowLeavesError(old(st), resp);
      if hasError {
        st := StopWithError(st);
        return Some(ScriptError(scriptError)), 0;
      }
      launched := Relaunch(pool);
      stop := None;
    }

    /** launchPendingRPCs and the new value of inflight. */
    method Relaunch(pool: Pool) returns (launched: nat)
      requires Valid() && pool.working == st.cur.working
      modifies this`st, pendingRPCs`len, pool`working
      ensures Valid() && st == Launch(old(st)) && pool.working == st.cur.working && launched == |old(st).pending|
    {
      launched := LaunchPendingRPCs(pool);
      st := Launch(st);
    }

    /** `<-results` for this instance's loop. */
    method Await(pool: Pool, ghost start: State, ghost before: seq<Step>)
      returns (got: bool, r: Result, ghost run: seq<Step>)
      requires Valid() && Run(start, before) && st == After(start, before)
      requires st.looping && pool.Matches(st.cur) && pool.router == router
      modifies this`st, pool
      ensures Valid() && Run(start, run) && st == After(start, run) && OnlyLoopMoved(old(st), st)
      ensures Extends(before, run, [])
      ensures got ==> st.cur.chan != [] && r == st.cur.chan[0] && pool.Matches(st.cur.(chan := st.cur.chan[1..]))
      ensures got ==> old(pool.chan) <= [r] + pool.chan
      ensures !got ==> Stuck(st)
    {
      got, r, run, st := pool.Receive(start, before);
    }

    /** The loop's local variables agree with the protocol state. */
    ghost predicate AtLoopHead(pool: Pool, inflight: int)
      reads this, pool
    {
      && pool.router == st.router && inflight == st.cur.inflight && st.looping == (inflight > 0)
      && st.open == map[] && !st.torn && st.pending == []
      && (st.looping ==> pool.Matches(st.cur))
    }

    /** One turn of `for inflight > 0`. */
    method Turn(pool: Pool, inflight: nat, resp: Response, ghost start: State, ghost before: seq<Step>)
      returns (stop: Option<LoopReturn>, inflight': nat, ghost run: seq<Step>)
      requires Valid() && pool !in Footprint() && AtLoopHead(pool, inflight) && inflight > 0
      requires Run(start, before) && st == After(start, before)
      modifies Footprint(), pool
      ensures Valid() && fresh(Footprint() - old(Footprint()))
      ensures Run(start, run) && st == After(start, run)
      ensures stop.None? ==> AtLoopHead(pool, inflight') && resp.Behaves? && Distance(st) < old(Distance(st)) + 3 * |resp.tr|
      ensures Extends(before, run, if stop == Some(BlockedForever) then [] else [StepOf(resp)])
      ensures Held(st) == if stop == Some(BlockedForever) then Held(old(st)) else HeardAfter(TraceOf(resp), Held(old(st)))
      ensures stop.Some? ==> Ended(stop.value)
      ensures TurnedBy(stop, resp)
      ensures stop.None? ==> st.error.None?
    {
      hide Extends, Stuck, Distance, FeedResponse, Stops, Segment, Fed, Run, After;
      var got, r;
      got, r, run := Await(pool, start, before);
      if !got {
        return Some(BlockedForever), inflight, run;
      }
      inflight' := inflight - 1;
      ghost var s := st;
      var launched;
      stop, launched := Iterate(pool, r, resp);
      ResponseIsStep(s, resp);
      ResponseReports(s, resp);
      OneLast(start, run, StepOf(resp));
      ExtendsOnce(before, run, StepOf(resp));
      run := run + [StepOf(resp)];
      inflight' := inflight' + launched;
    }

    /** What an early end of the loop leaves behind. */
    ghost predicate Ended(ret: LoopReturn)
      reads this
    {
      match ret
      case Nil => false
      case ScriptError(text) => !st.looping && st.torn && st.error == Some(text)
      case FeedError => !st.looping && st.torn
      case BlockedForever => st.looping && Stuck(st)
    }

    /** serviceRPCLoop. `script` is what the guest does when each result is fed
        back, in order of arrival, and nothing after that. `before` is a run from
        `origin` to the state in which the first batch is launched. */
    method ServiceRPCLoop(script: seq<Response>, ghost origin: State, ghost before: seq<Step>)
      returns (ret: LoopReturn, ghost run: seq<Step>, ghost turns: nat)
      requires Valid() && st.open == map[] && !st.looping && !st.torn && st.cur == EmptyLoop()
      requires st.pending != [] ==> Run(origin, before) && After(origin, before) == Launch(st)
      modifies Footprint()
      ensures Valid() && fresh(Footprint() - old(Footprint()))
      ensures old(st).pending == [] ==> ret == Nil && st == old(st) && run == before && turns == 0
      ensures old(st).pending != [] ==>
        Run(origin, run) && st == After(origin, run) && Extends(before, run, Turns(script, turns))
      ensures Held(st) == HeardAfter(Said(Turns(script, turns)), Held(old(st)))
      ensures if ret == Nil then !st.looping && !st.torn && st.pending == [] else Ended(ret)
      ensures Course(ret, script, turns)
      ensures ret == Nil && turns > 0 ==> st.error.None?
    {
      hide Extends, Turns, Said, HeardAfter, Stuck, Distance, Run, After, Launch, AllBehave, Course, TurnedBy, Answering;
      NoTurnsYet(script);
      SaidNothing(script, Held(st));
      run, turns := before, 0;
      if pendingRPCs.len == 0 {
        return Nil, run, turns;
      }
      var pool := new Pool(router);
      FirstLaunch(st);
      var inflight := Relaunch(pool);
      var i := 0;
      ExtendsNone(before, script);
      while inflight > 0
        invariant Valid() && fresh(Footprint() - old(Footprint())) && pool !in Footprint() && fresh(pool)
        invariant AtLoopHead(pool, inflight) && Run(origin, run) && st == After(origin, run)
        invariant Extends(before, run, Turns(script, turns))
        invariant Held(st) == HeardAfter(Said(Turns(script, turns)), Held(old(st)))
        invariant i == turns && (turns > 0 ==> st.error.None?)
        invariant AllBehave(script, turns)
        decreases Distance(st) + 3 * Remaining(script, i)
      {
        var resp := Answering(script, i);
        RemainingNext(script, i);
        ghost var done := run;
        var stop;
        stop, inflight, run := Turn(pool, inflight, resp, origin, run);
        var blocked := stop == Some(BlockedForever);
        TurnExtends(before, done, run, script, turns, blocked);
        TurnReports(script, turns, Held(old(st)));
        CourseGoesOn(script, turns, stop);
        turns := if blocked then turns else turns + 1;
        if stop.Some? {
          return stop.value, run, turns;
        }
        i := i + 1;
      }
      NormalCourse(script, turns);
      ret := Nil;
    }

    /** An invocation up to the return of its export. */
    method Enter(plan: Plan)
      requires Valid() && st.open == map[] && !st.looping
      modifies Footprint()
      ensures Valid() && fresh(Footprint() - old(Footprint()))
      ensures Apply(old(st), FirstStep(plan)) ==
        if plan.allocOk && plan.async && !plan.traps && st.pending != [] then Launch(st) else st
      ensures st.open == map[] && !st.looping && st.cur == EmptyLoop() && !st.torn
      ensures Held(st) == Entered(plan, old(st).used)
    {
      EnterReports(st, plan);
      ResetForInvocation();
      if plan.allocOk {
        DiscardFrame(st, plan.drain, plan.resets);
        DiscardStaleState(plan.drain, plan.resets);
        SegmentFrame(st, plan.body);
        Execute(plan.body);
      }
    }

    /** Eval, EvalCompiled or DispatchEvent. `history` is the run so far; it goes
        on with the start of this invocation and, when it is asynchronous and
        queued calls, with the iterations that the guest's script answers. */
    method Invoke(plan: Plan, ghost history: seq<Step>)
      returns (reply: Reply, ghost run: seq<Step>, ghost turns: nat)
      requires Valid() && Run(Init(router), history) && st == After(Init(router), history) && !st.looping
      modifies Footprint()
      ensures Valid() && fresh(Footprint() - old(Footprint()))
      ensures Run(Init(router), run) && st == After(Init(router), run)
      ensures Extends(history + [FirstStep(plan)], run, Turns(plan.script, turns))
      ensures !plan.async ==> run == history + [FirstStep(plan)]
      ensures reply == AllocFailed <==> !plan.allocOk
      ensures reply == CallFailed <==> plan.allocOk && plan.traps
      ensures st.looping <==> reply == Hung
      ensures reply == Hung ==> Stuck(st)
      ensures reply == SettleFailed <==> turns > 0 && NotFed(Answering(plan.script, turns - 1))
      ensures Held(st) == HeardAfter(Said(Turns(plan.script, turns)), Entered(plan, old(usedRpcCalls)))
      ensures reply.ScriptFailed? ==> st.error.Some? && reply.err == ErrorWire.ParseErrorJson(st.error.value)
      ensures reply.Replied? ==> st.error == None && reply.value == st.result
      ensures reply.Replied? && plan.async ==> !st.torn && st.pending == []
    {
      hide Extends, Iterated, Turns, Said, HeardAfter, Entered, NotFed, Answering, Course, Stuck, Act, Taken, ErrorWire.ParseErrorJson;
      OpenAtRest(router, history);
      OneLast(Init(router), history, FirstStep(plan));
      run, turns := history + [FirstStep(plan)], 0;
      ExtendsNone(run, plan.script);
      SaidNothing(plan.script, Entered(plan, usedRpcCalls));
      Enter(plan);
      if !plan.allocOk {
        return AllocFailed, run, turns;
      }
      if plan.traps {
        return CallFailed, run, turns;
      }
      if plan.async {
        var ret;
        ret, run, turns := ServiceRPCLoop(plan.script, Init(router), run);
        FeedErrorIff(ret, plan.script, turns);
        match ret {
          case Nil =>
          case ScriptError(text) => return ScriptFailed(ErrorWire.ParseErrorJson(text)), run, turns;
          case FeedError => return SettleFailed, run, turns;
          case BlockedForever => return Hung, run, turns;
        }
      }
      if hasError {
        reply := ScriptFailed(ErrorWire.ParseErrorJson(scriptError));
      } else {
        reply := Replied(if hasResult then Some(resultValue) else None);
      }
    }
  }

  /** What the environment does during one invocation. */
  datatype Plan = Plan(allocOk: bool, drain: Trace, resets: bool, body: Trace, traps: bool, async: bool, script: seq<Response>)

  /** How the invocation ends. */
  datatype Reply =
    | AllocFailed | CallFailed | SettleFailed | Hung
    | ScriptFailed(err: ErrorWire.HostError)
    | Replied(value: Option<string>)

  lemma RemainingNext(script: seq<Response>, i: nat)
    ensures Instance.Remaining(script, i) ==
      (if Answering(script, i).Behaves? then |Answering(script, i).tr| else 0) + Instance.Remaining(script, i + 1)
  {
  }

  lemma FirstLaunch(s: State)
    requires s.cur == EmptyLoop()
    ensures var t := Launch(s);
      && t == s.(cur := t.cur, pending := [], looping := |s.pending| > 0)
      && t.cur == Loop(s.pending, [], [], [], [], [], |s.pending|, s.pending == [])
  {
  }

  lemma ExtendsNone(run: seq<Step>, script: seq<Response>)
    ensures Extends(run, run, Turns(script, 0))
  {
    ExtendsItself(run);
  }

  /** What the host holds when the export has returned: the last reports of the
      body or, where it made none, of the drained jobs. */
  function Entered(plan: Plan, used: bool): Heard {
    if plan.allocOk then HeardAfter(plan.body, if used then HeardAfter(plan.drain, NOTHING) else NOTHING) else NOTHING
  }

  lemma EnterReports(s: State, plan: Plan)
    ensures Held(ResetState(s)) == NOTHING
    ensures plan.allocOk ==>
      Held(Segment(Discard(ResetState(s), plan.drain, plan.resets, false), plan.body)) == Entered(plan, s.used)
  {
    if plan.allocOk {
      BeginReports(s, plan.drain, plan.resets, plan.body, false);
    }
  }

  function FirstStep(plan: Plan): Step {
    if plan.allocOk then Begin(plan.drain, plan.resets, plan.body, plan.async && !plan.traps) else BeginFailed
  }

  /** The first n iterations of a loop whose results the guest answers by `script`. */
  function Turns(script: seq<Response>, n: nat): seq<Step> {
    if n == 0 then []
    else Turns(script, n - 1) + [StepOf(Answering(script, n - 1))]
  }

  /** What the guest does in iteration n, counting from 0. */
  function Answering(script: seq<Response>, n: nat): Response {
    if n < |script| then script[n] else Behaves([])
  }

  /** How this answer of the guest bears on the loop. */
  predicate TurnedBy(stop: Option<LoopReturn>, resp: Response) {
    match stop
    case None => resp.Behaves?
    case Some(FeedError) => NotFed(resp)
    case Some(ScriptError(_)) => !NotFed(resp)
    case Some(_) => true
  }

  predicate AllBehave(script: seq<Response>, n: nat) {
    forall i :: 0 <= i < n ==> Answering(script, i).Behaves?
  }

  /** What the guest's answers were when the loop ended like this: the loop goes on
      after those that came back normally, and its two errors tell a settlement that
      did not take place from one that was followed by a script error. */
  predicate Course(ret: LoopReturn, script: seq<Response>, turns: nat) {
    match ret
    case FeedError => turns > 0 && NotFed(Answering(script, turns - 1)) && AllBehave(script, turns - 1)
    case ScriptError(_) => turns > 0 && !NotFed(Answering(script, turns - 1)) && AllBehave(script, turns - 1)
    case _ => AllBehave(script, turns)
  }

  lemma FeedErrorIff(ret: LoopReturn, script: seq<Response>, turns: nat)
    requires Course(ret, script, turns)
    ensures ret == FeedError <==> turns > 0 && NotFed(Answering(script, turns - 1))
  {
  }

  lemma NoTurnsYet(script: seq<Response>)
    ensures AllBehave(script, 0) && Course(Nil, script, 0)
  {
  }

  lemma NormalCourse(script: seq<Response>, n: nat)
    requires AllBehave(script, n)
    ensures Course(Nil, script, n)
  {
  }

  lemma CourseGoesOn(script: seq<Response>, n: nat, stop: Option<LoopReturn>)
    requires AllBehave(script, n) && TurnedBy(stop, Answering(script, n)) && stop != Some(Nil)
    ensures stop.None? ==> AllBehave(script, n + 1)
    ensures stop.Some? ==> Course(stop.value, script, if stop == Some(BlockedForever) then n else n + 1)
  {
  }

  /** The settlement export could not be called, or trapped. */
  predicate NotFed(resp: Response) {
    resp.OutOfMemory? || resp.Traps?
  }

  lemma TurnExtends(before: seq<Step>, done: seq<Step>, run: seq<Step>, script: seq<Response>, n: nat, blocked: bool)
    requires Extends(before, done, Turns(script, n))
    requires Extends(done, run, if blocked then [] else [StepOf(Answering(script, n))])
    ensures Extends(before, run, Turns(script, if blocked then n else n + 1))
  {
    ExtendsThen(before, done, run, Turns(script, n), if blocked then [] else [StepOf(Answering(script, n))]);
    assert Turns(script, n) + [] == Turns(script, n);
  }

  lemma OpenAtRest(router: Router, history: seq<Step>)
    requires Run(Init(router), history)
    ensures After(Init(router), history).open == map[]
  {
    InitInv(router);
    RunKeepsInv(Init(router), history, false);
  }

  lemma DiscardFrame(s: State, drain: Trace, resets: bool)
    ensures var t := Discard(s, drain, resets, false);
      t.cur == s.cur && t.looping == s.looping && t.torn == s.torn && t.router == s.router && (s.open == map[] ==> t.open == map[])
  {
    SegmentFrame(s.(used := false, draining := true), drain);
  }

  /** An asynchronous invocation that returns to its caller without an error of
      the loop has settled each of its calls exactly once. */
  lemma AnsweredInvocation(router: Router, run: seq<Step>)
    requires Run(Init(router), run)
    requires var s := After(Init(router), run); !s.looping && !s.torn && s.pending == []
    ensures var s := After(Init(router), run);
      && multiset(s.cur.fed) == multiset(s.queued)
      && (forall c :: c in s.queued ==> multiset(s.cur.fed)[c] == 1)
      && (!s.clash ==> forall c :: c in s.queued && !c.stale && c.uid !in s.removed ==>
            Settlement(c.uid, s.inv, c, Answer(router, c)) in s.settled)
  {
    InitInv(router);
    RunKeepsInv(Init(router), run, false);
    RouterFixed(Init(router), run, false);
    AllFed(After(Init(router), run));
  }

  function TraceOf(resp: Response): Trace {
    match resp
    case OutOfMemory => []
    case Throws(_, tr, text) => tr + [SetError(text)]
    case Traps(_, tr) => tr
    case Behaves(tr) => tr
  }

  function ReachedBy(resp: Response): Reached {
    match resp
    case OutOfMemory => Untouched
    case Throws(reached, _, _) => reached
    case Traps(reached, _) => reached
    case Behaves(_) => Settled
  }

  /** The state when the settlement export has come back, or failed to. */
  ghost function FedBack(s: State, resp: Response): State
    requires s.cur.chan != []
  {
    if resp.Behaves? then Segment(Fed(s), resp.tr) else Segment(Broken(s, ReachedBy(resp)), TraceOf(resp))
  }

  ghost function FeedResponse(s: State, resp: Response): State
    requires s.cur.chan != []
  {
    if resp.Behaves? then FeedOk(s, resp.tr) else FeedBroken(s, ReachedBy(resp), TraceOf(resp))
  }

  /** Whether and why this iteration ends the loop early. */
  ghost function Stops(s: State, resp: Response): Option<LoopReturn>
    requires s.cur.chan != []
  {
    match resp
    case OutOfMemory => Some(FeedError)
    case Traps(_, _) => Some(FeedError)
    case Throws(_, _, text) => Some(ScriptError(text))
    case Behaves(tr) =>
      var e := Segment(Fed(s), tr).error;
      if e.Some? then Some(ScriptError(e.value)) else None
  }

  lemma NothingReached(s: State)
    requires s.cur.chan != [] && s.open == map[]
    ensures Segment(Broken(s, Untouched), []) == Broken(s, Untouched)
  {
  }

  lemma {:induction false} LastActs(s: State, tr: Trace, a: Action)
    ensures Acts(s, tr + [a]) == Act(Acts(s, tr), a)
    decreases |tr|
  {
    if tr == [] {
      assert ([] + [a])[1..] == [];
    } else {
      LastActs(Act(s, tr[0]), tr[1..], a);
      assert (tr + [a])[1..] == tr[1..] + [a];
    }
  }

  lemma ThrowLeavesError(s: State, resp: Response)
    requires s.cur.chan != []
    ensures resp.Throws? ==> FedBack(s, resp).error == Some(resp.text)
  {
    if resp.Throws? {
      LastActs(Broken(s, resp.reached), resp.tr, SetError(resp.text));
    }
  }

  lemma SegmentEnds(s: State, tr: Trace, t: State)
    requires Acts(t, tr[|tr|..]) == Acts(s, tr)
    ensures t.(open := map[]) == Segment(s, tr)
  {
    assert tr[|tr|..] == [];
  }

  lemma ActsNext(s: State, tr: Trace, i: nat)
    requires i < |tr|
    ensures Acts(s, tr[i..]) == Acts(Act(s, tr[i]), tr[i + 1..])
  {
    assert tr[i..][1..] == tr[i + 1..];
  }

  lemma ResponseReports(s: State, resp: Response)
    requires s.cur.chan != [] && s.looping
    ensures Held(Apply(s, StepOf(resp))) == HeardAfter(TraceOf(resp), Held(s))
  {
    StepReports(s, StepOf(resp));
  }

  lemma TurnReports(script: seq<Response>, n: nat, before: Heard)
    ensures HeardAfter(Said(Turns(script, n + 1)), before) ==
      HeardAfter(TraceOf(Answering(script, n)), HeardAfter(Said(Turns(script, n)), before))
  {
    SaidMore(Turns(script, n), StepOf(Answering(script, n)));
    HeardConcat(Said(Turns(script, n)), TraceOf(Answering(script, n)), before);
  }

  lemma SaidNothing(script: seq<Response>, h: Heard)
    ensures HeardAfter(Said(Turns(script, 0)), h) == h
  {
  }

  /** An iteration can only end the loop by one of the two error returns. */
  predicate EndsWith(ret: LoopReturn, error: Option<string>) {
    ret == FeedError || (ret.ScriptError? && error == Some(ret.text))
  }

  lemma ExtendsOnce(before: seq<Step>, run: seq<Step>, st: Step)
    requires Extends(before, run, []) && (st.Feed? || st.FeedBreaks?)
    ensures Extends(before, run + [st], [st])
  {
    ExtendsMore(before, run, [], st);
    assert [] + [st] == [st];
  }

  lemma ResponseIsStep(s: State, resp: Response)
    requires s.cur.chan != [] && s.looping && s.open == map[]
    ensures var t := FeedResponse(s, resp);
      && CanStep(s, StepOf(resp)) && t == Apply(s, StepOf(resp)) && t.open == map[] && t.router == s.router
      && (Stops(s, resp).Some? ==> !t.looping && t.torn && EndsWith(Stops(s, resp).value, t.error))
      && (Stops(s, resp) == Some(FeedError) <==> resp.OutOfMemory? || resp.Traps?)
      && (Stops(s, resp).None? ==>
            && t.error.None? && resp.Behaves? && t.torn == s.torn && t.pending == []
            && t.cur.inflight == s.cur.inflight - 1 + |Segment(Fed(s), resp.tr).pending|
            && t.looping == (t.cur.inflight > 0)
            && (t.looping ==> t.cur == s.cur.(chan := s.cur.chan[1..], working := t.cur.working, fed := t.cur.fed, inflight := t.cur.inflight))
            && Distance(t) < Distance(s) + 3 * |resp.tr|)
  {
    if resp.Behaves? {
      BehaviourIsStep(s, resp.tr);
    } else {
      ThrowLeavesError(s, resp);
      BrokenFrame(s, ReachedBy(resp));
      SegmentFrame(Broken(s, ReachedBy(resp)), TraceOf(resp));
    }
  }

  lemma BrokenFrame(s: State, reached: Reached)
    requires s.cur.chan != []
    ensures Broken(s, reached).router == s.router
  {
    match reached
    case Settled => FedFrame(s);
    case _ =>
  }

  lemma BehaviourIsStep(s: State, tr: Trace)
    requires s.cur.chan != [] && s.looping && s.open == map[]
    ensures var t := FeedOk(s, tr);
      var x := Segment(Fed(s), tr);
      && t.open == map[] && t.router == s.router
      && (x.error.Some? ==> !t.looping && t.torn && t.error == x.error)
      && (x.error.None? ==>
            && t.torn == s.torn && t.pending == [] && t.error.None?
            && t.cur.inflight == s.cur.inflight - 1 + |x.pending|
            && t.looping == (t.cur.inflight > 0)
            && (t.looping ==> t.cur == s.cur.(chan := s.cur.chan[1..], working := t.cur.working, fed := t.cur.fed, inflight := t.cur.inflight))
            && Distance(t) < Distance(s) + 3 * |tr|)
  {
    SegmentFrame(Fed(s), tr);
    FeedApproaches(s, tr);
    FedLoop(s);
    FedFrame(s);
    hide Fed, Segment, Distance, Launch, StopWithError;
    LaunchFrame(Segment(Fed(s), tr));
    StopFrame(Segment(Fed(s), tr));
  }

  lemma StopFrame(s: State)
    ensures var t := StopWithError(s);
      t.router == s.router && t.open == s.open && t.error == s.error && !t.looping && t.torn
  {
  }

  lemma LaunchFrame(s: State)
    ensures var t := Launch(s);
      && t == s.(cur := t.cur, pending := [], looping := t.cur.inflight > 0)
      && t.cur.inflight == s.cur.inflight + |s.pending|
      && (t.looping ==> t.cur == s.cur.(working := t.cur.working, inflight := t.cur.inflight))
  {
  }

  function StepOf(resp: Response): Step {
    if resp.Behaves? then Feed(resp.tr) else FeedBreaks(ReachedBy(resp), TraceOf(resp))
  }

  lemma SegmentFrame(s: State, tr: Trace)
    ensures var t := Segment(s, tr);
      t.cur == s.cur && t.looping == s.looping && t.torn == s.torn && t.router == s.router && t.open == map[]
  {
    ActsFix(s, tr);
  }

  /** An iteration brings the loop closer to its end by one step, less what the
      guest queued, which is at most one call for each action. */
  lemma FeedApproaches(s: State, tr: Trace)
    requires s.cur.chan != []
    ensures Distance(FeedOk(s, tr)) < Distance(s) + 3 * |tr|
  {
    FedCosts(s);
    ActsFix(Fed(s), tr);
    ActsQueueAtMost(Fed(s), tr);
    LaunchIsFree(Segment(Fed(s), tr));
  }

  lemma FedTable(s: State)
    requires s.cur.chan != []
    ensures var r, t := s.cur.chan[0], Fed(s);
      && t.table == s.table - {r.call.id} && t.settled == s.settled + Told(s.table, r)
      && t == s.(table := t.table, settled := t.settled, cur := t.cur)
      && t.cur.working == s.cur.working
  {
  }

  lemma BrokenTable(s: State, reached: Reached)
    requires s.cur.chan != []
    ensures var r, t := s.cur.chan[0], Broken(s, reached);
      && t.table == (if reached == Untouched then s.table else s.table - {r.call.id})
      && t.settled == s.settled + (if reached == Settled then Told(s.table, r) else [])
      && t == s.(table := t.table, settled := t.settled, cur := t.cur, torn := t.torn)
  {
    match reached
    case Settled => FedTable(s);
    case _ => assert s.settled + [] == s.settled;
  }

  lemma {:induction false} ActsQueueAtMost(s: State, tr: Trace)
    ensures |Acts(s, tr).pending| <= |s.pending| + |tr|
    decreases |tr|
  {
    if tr != [] {
      ActQueuesAtMost(s, tr[0]);
      ActsQueueAtMost(Act(s, tr[0]), tr[1..]);
    }
  }

  lemma ActQueuesAtMost(s: State, a: Action)
    ensures |Act(s, a).pending| <= |s.pending| + 1
  {
    ActFixes(s, a);
    hide Taken, IdOf;
    match a
    case Send(u, p) =>
    case _ =>
  }
}
