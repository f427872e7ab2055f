/** The handler goroutines of one service loop and the channel they share
    (kafig-go/instance.go). Which goroutine moves next is not determined. */
module Goroutines {
  import opened Rpc
  import opened Protocol
  import opened ProtocolLiveness

  class Pool {
    const router: Router
    var working: seq<Call>
    var ready: seq<Result>
    var chan: seq<Result>
    var dropped: seq<Call>
    var cancelled: bool

    constructor (router: Router)
      ensures this.router == router
      ensures working == [] && ready == [] && chan == [] && dropped == [] && !cancelled
    {
      this.router := router;
      working, ready, chan, dropped, cancelled := [], [], [], [], false;
    }

    ghost predicate Matches(l: Loop)
      reads this
    {
      l == Loop(working, ready, chan, dropped, l.fed, l.lost, l.inflight, cancelled)
    }

    /** `go func(r rpcCall) { ... }(rpc)` */
    method Spawn(c: Call)
      modifies this`working
      ensures working == old(working) + [c]
    {
      working := working + [c];
    }

    /** Steps that the goroutines can still take before they run out. */
    function Left(): nat
      reads this
    {
      4 * |working| + 2 * |ready| + (if cancelled then 0 else 1)
    }

    method Take(m: Move, ghost l: Loop)
      requires Matches(l) && CanMove(l, m)
      modifies this
      ensures Matches(MoveLoop(router, l, m)) && Left() < old(Left())
      ensures old(chan) <= chan
    {
      match m
      case Work(k) =>
        ready := ready + [RunHandler(router, working[k])];
        working := RemoveAt(working, k);
      case Post(k) =>
        chan := chan + [ready[k]];
        ready := RemoveAt(ready, k);
      case Drop(k) =>
        dropped := dropped + [ready[k].call];
        ready := RemoveAt(ready, k);
    }

    /** Some goroutine that can move, or none. */
    method Pick() returns (m: Option<Move>)
      ensures m.Some? ==>
        CanMove(Loop(working, ready, chan, dropped, [], [], 0, cancelled), m.value)
      ensures m.None? && chan == [] ==> working == [] && ready == []
    {
      m := None;
      if {
        case working != [] =>
          var k: nat :| k < |working|;
          m := Some(Work(k));
        case ready != [] && |chan| < CAPACITY =>
          var k: nat :| k < |ready|;
          m := Some(Post(k));
        case ready != [] && cancelled =>
          var k: nat :| k < |ready|;
          m := Some(Drop(k));
        case working == [] && (ready == [] || |chan| >= CAPACITY) =>
      }
    }

    /** One scheduling decision while the loop waits: a goroutine moves or the
        context becomes done, unless no goroutine can move. */
    method Schedule(ghost t: State) returns (moved: bool, ghost step: Step)
      requires Matches(t.cur) && t.looping && t.router == router
      modifies this
      ensures moved ==> (step.Go? || step.Cancel?) && CanStep(t, step) && Matches(Apply(t, step).cur) && Left() < old(Left())
      ensures !moved ==> Matches(t.cur) && (chan == [] ==> Stuck(t))
      ensures old(chan) <= chan
    {
      var cancel: bool := *;
      if cancel && !cancelled {
        cancelled := true;
        return true, Cancel;
      }
      var m := Pick();
      if m.None? {
        if chan == [] { AllDroppedIsStuck(t); }
        return false, Cancel;
      }
      Take(m.value, t.cur);
      GoMoves(t, m.value);
      return true, Go(m.value);
    }

    /** `<-results`: goroutines move, and the context may become done, for as
        long as the scheduler likes; then a result is received. The receive
        blocks for ever only if nothing can move and the channel is empty. What was
        in the channel before comes out first, in its order.
        `run` extends the ghost run `before` that led from `start` to here. */
    method Receive(ghost start: State, ghost before: seq<Step>)
      returns (got: bool, r: Result, ghost run: seq<Step>, ghost t: State)
      requires Run(start, before)
      requires var s := After(start, before); s.looping && Matches(s.cur) && s.router == router
      modifies this
      ensures Run(start, run) && t == After(start, run)
      ensures OnlyLoopMoved(After(start, before), t) && Extends(before, run, [])
      ensures got ==> t.cur.chan != [] && r == t.cur.chan[0] && Matches(t.cur.(chan := t.cur.chan[1..]))
      ensures got ==> old(chan) <= [r] + chan
      ensures !got ==> Stuck(t)
    {
      hide Extends, Stuck, Run, After, Apply, CanStep, OnlyLoopMoved;
      ExtendsItself(before);
      StaysPut(After(start, before));
      run, t := before, After(start, before);
      var more: bool := *;
      while more || chan == []
        invariant Run(start, run) && t == After(start, run)
        invariant OnlyLoopMoved(After(start, before), t) && Extends(before, run, [])
        invariant Matches(t.cur) && t.looping && t.router == router && old(chan) <= chan
        decreases Left()
      {
        var moved: bool;
        ghost var step;
        moved, step := Schedule(t);
        if !moved {
          if chan != [] { break; }
          r := Result(Call(0, 0, "", "", 0, false), None, None);
          return false, r, run, t;
        }
        OneLast(start, run, step);
        ExtendsMore(before, run, [], step);
        StepWanders(After(start, before), t, step);
        run, t := run + [step], Apply(t, step);
        more := *;
      }
      r := chan[0];
      assert chan == [r] + chan[1..];
      chan := chan[1..];
      got := true;
    }
  }

  /** The iterations of the service loop in a run, in order. */
  function Iterated(steps: seq<Step>): seq<Step> {
    if steps == [] then []
    else
      var last := steps[|steps| - 1];
      Iterated(steps[..|steps| - 1]) + (if last.Feed? || last.FeedBreaks? then [last] else [])
  }

  /** `run` goes on from `before` with the goroutines, the context and exactly
      these iterations of the loop. */
  ghost predicate Extends(before: seq<Step>, run: seq<Step>, iterations: seq<Step>) {
    && before <= run
    && (forall i :: |before| <= i < |run| ==> run[i].Go? || run[i].Cancel? || run[i].Feed? || run[i].FeedBreaks?)
    && Iterated(run) == Iterated(before) + iterations
  }

  lemma ExtendsItself(run: seq<Step>)
    ensures Extends(run, run, [])
  {
    assert Iterated(run) + [] == Iterated(run);
  }

  lemma ExtendsMore(before: seq<Step>, run: seq<Step>, iterations: seq<Step>, st: Step)
    requires Extends(before, run, iterations) && (st.Go? || st.Cancel? || st.Feed? || st.FeedBreaks?)
    ensures Extends(before, run + [st], iterations + if st.Feed? || st.FeedBreaks? then [st] else [])
  {
    assert (run + [st])[..|run|] == run;
    assert Iterated(before) + iterations + [st] == Iterated(before) + (iterations + [st]);
    assert iterations + [] == iterations;
  }

  lemma ExtendsThen(a: seq<Step>, b: seq<Step>, c: seq<Step>, xs: seq<Step>, ys: seq<Step>)
    requires Extends(a, b, xs) && Extends(b, c, ys)
    ensures Extends(a, c, xs + ys)
  {
    assert Iterated(a) + xs + ys == Iterated(a) + (xs + ys);
  }

  lemma GoMoves(t: State, m: Move)
    requires CanMove(t.cur, m)
    ensures CanStep(t, Go(m)) && Apply(t, Go(m)).cur == MoveLoop(t.router, t.cur, m)
  {
  }

  /** Goroutines and the context leave the rest of the state alone. */
  ghost predicate OnlyLoopMoved(s: State, t: State) {
    t == s.(cur := t.cur) && t.cur.inflight == s.cur.inflight && Distance(t) <= Distance(s)
  }

  lemma StaysPut(s: State)
    ensures OnlyLoopMoved(s, s)
  {
  }

  lemma StepWanders(s: State, t: State, st: Step)
    requires OnlyLoopMoved(s, t) && CanStep(t, st) && (st.Go? || st.Cancel?)
    ensures OnlyLoopMoved(s, Apply(t, st)) && Apply(t, st).looping == t.looping && Apply(t, st).router == t.router
  {
  }

  lemma {:induction false} OneLast(s: State, steps: seq<Step>, st: Step)
    requires Run(s, steps) && CanStep(After(s, steps), st)
    ensures Run(s, steps + [st]) && After(s, steps + [st]) == Apply(After(s, steps), st)
    decreases |steps|
  {
    if steps == [] {
      assert [st][1..] == [];
    } else {
      OneLast(Apply(s, steps[0]), steps[1..], st);
      assert (steps + [st])[1..] == steps[1..] + [st];
    }
  }
}
