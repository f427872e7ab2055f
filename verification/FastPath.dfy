/** The clean-up fast path of discard_stale_state (kafig-runtime/src/tracking.rs)
    refines a clean-up before every invocation: whatever the guest, the handlers
    and the scheduler do, both make the same calls and settle the same promises
    with the same outcomes. */
module FastPath {
  import opened Rpc
  import opened PromiseIds
  import opened Protocol
  import opened ProtocolProofs
  import opened ProtocolTheorems

  /** `a` skips clean-ups, `b` never does: they differ in leftover entries of
      `a` whose id no outstanding call and no unsent promise has. */
  ghost predicate Refines(a: State, b: State) {
    && b == a.(table := b.table, removed := b.removed) && b.removed <= a.removed
    && (forall k :: k in b.table ==> k in a.table && a.table[k] == b.table[k])
    && (forall k :: k in a.table && k !in b.table ==> !Taken(a, k))
  }

  lemma SameLive(a: State, b: State)
    requires b == a.(table := b.table, removed := b.removed)
    ensures Live(a) == Live(b)
  {
  }

  lemma DrawRefines(a: State, b: State, m: string)
    requires Refines(a, b)
    ensures Refines(DoDraw(a, m), DoDraw(b, m))
  {
    var a', b' := DoDraw(a, m), DoDraw(b, m);
    var id := IdOf(a.drawn + 1);
    SameLive(a, b);
    assert Live(a') == Live(a);
    forall k | k in a'.table && k !in b'.table ensures !Taken(a', k) {
      assert k != id && !TakenIn(Live(a), a.open, k);
    }
  }

  lemma SendRefines(a: State, b: State, u: nat, p: string)
    requires Refines(a, b) && u in a.open
    ensures Refines(DoSend(a, u, p), DoSend(b, u, p))
  {
    var a', b' := DoSend(a, u, p), DoSend(b, u, p);
    LiveAfterSend(a, u, p);
    forall k | k in a'.table && k !in b'.table ensures !Taken(a', k) {
      assert !TakenIn(Live(a), a.open, k);
      assert k != IdOf(u);
    }
  }

  lemma ActRefines(a: State, b: State, x: Action)
    requires Refines(a, b)
    ensures Refines(Act(a, x), Act(b, x))
  {
    match x
    case Draw(m) => DrawRefines(a, b, m);
    case Send(u, p) => if u in a.open { SendRefines(a, b, u, p); }
    case SetResult(j) => SignalRefines(a, b, a.error, Some(j));
    case SetError(e) => SignalRefines(a, b, Some(e), a.result);
    case ScriptSettles(id) => ScriptRefines(a, b, {id}, {id});
    case ScriptResets => ScriptRefines(a, b, a.table.Keys, b.table.Keys);
  }

  lemma ScriptRefines(a: State, b: State, ia: set<nat>, ib: set<nat>)
    requires Refines(a, b)
    requires forall k :: k in b.table ==> (k in ia <==> k in ib)
    ensures Refines(ScriptRemoves(a, ia), ScriptRemoves(b, ib))
  {
    var x, y := ScriptRemoves(a, ia), ScriptRemoves(b, ib);
    assert Live(x) == Live(a);
    forall k | k in x.table && k !in y.table ensures !Taken(x, k) {
      assert k in a.table && k !in b.table;
      assert !TakenIn(Live(a), a.open, k);
    }
  }

  lemma SignalRefines(a: State, b: State, error: Option<string>, result: Option<string>)
    requires Refines(a, b)
    ensures Refines(a.(error := error, result := result), b.(error := error, result := result))
  {
    var a', b' := a.(error := error, result := result), b.(error := error, result := result);
    assert Live(a') == Live(a);
    forall k | k in a'.table && k !in b'.table ensures !Taken(a', k) {
      assert !TakenIn(Live(a), a.open, k);
    }
  }

  lemma {:induction false} ActsRefine(a: State, b: State, tr: Trace)
    requires Refines(a, b)
    ensures Refines(Acts(a, tr), Acts(b, tr))
    decreases |tr|
  {
    if tr != [] {
      ActRefines(a, b, tr[0]);
      ActsRefine(Act(a, tr[0]), Act(b, tr[0]), tr[1..]);
    }
  }

  lemma SegmentRefines(a: State, b: State, tr: Trace)
    requires Refines(a, b)
    ensures Refines(Segment(a, tr), Segment(b, tr))
  {
    ActsRefine(a, b, tr);
    assert Live(Segment(a, tr)) == Live(Acts(a, tr));
  }

  /** A change that makes no new call outstanding keeps the refinement. */
  lemma FewerLiveRefines(a: State, b: State, a': State, b': State)
    requires Refines(a, b)
    requires a'.table == a.table && a'.removed == a.removed && b' == a'.(table := b.table, removed := b.removed) && a'.open == a.open
    requires forall c :: c in Live(a') ==> c in Live(a)
    ensures Refines(a', b')
  {
    forall k | k in a'.table && k !in b'.table ensures !Taken(a', k) {
      assert !TakenIn(Live(a), a.open, k);
    }
  }

  lemma LaunchRefines(a: State, b: State)
    requires Refines(a, b) && (a.looping || InFlight(a.cur) == multiset{})
    ensures Refines(Launch(a), Launch(b))
  {
    LaunchedBag(a);
    FewerLiveRefines(a, b, Launch(a), Launch(b));
  }

  lemma BeginRefines(a: State, b: State, drain: Trace, resets: bool, body: Trace, async: bool)
    requires Refines(a, b) && Inv(a) && !a.looping
    ensures Refines(BeginWith(a, drain, resets, body, async, false), BeginWith(b, drain, resets, body, async, true))
  {
    var a1, b1 := ResetState(a), ResetState(b);
    ResetRefines(a, b);
    DiscardedIsIdle(a1, drain, resets);
    DiscardRefines(a1, b1, drain, resets);
    var a2, b2 := Discard(a1, drain, resets, false), Discard(b1, drain, resets, true);
    SegmentRefines(a2, b2, body);
    SegmentKeepsCore(a2, body);
    var a3, b3 := Segment(a2, body), Segment(b2, body);
    hide Refines, Segment, Discard, Core, ResetState;
    if async && a3.pending != [] {
      LaunchRefines(a3, b3);
    }
    SamePending(a3, b3);
  }

  lemma SamePending(a: State, b: State)
    requires Refines(a, b)
    ensures a.pending == b.pending
  {
  }

  lemma ResetRefines(a: State, b: State)
    requires Refines(a, b) && Inv(a) && !a.looping
    ensures var a', b' := ResetState(a), ResetState(b);
      Refines(a', b') && Inv(a') && Live(a') == multiset{} && a'.open == map[] && !a'.torn && !a'.looping && a'.cur == EmptyLoop()
  {
    ResetKeepsInv(a);
    NothingTaken(ResetState(a), ResetState(b));
    hide Inv, Core, Live;
    assert ResetState(b) == ResetState(a).(table := b.table, removed := b.removed);
  }

  lemma NothingTaken(a: State, b: State)
    requires Live(a) == multiset{} && a.open == map[]
    requires b == a.(table := b.table, removed := b.removed) && b.removed <= a.removed
    requires forall k :: k in b.table ==> k in a.table && a.table[k] == b.table[k]
    ensures Refines(a, b)
  {
  }

  lemma DiscardedIsIdle(a: State, drain: Trace, resets: bool)
    requires Inv(a) && Live(a) == multiset{} && !a.torn && !a.looping && a.cur == EmptyLoop()
    ensures Core(Discard(a, drain, resets, false)) && InFlight(Discard(a, drain, resets, false).cur) == multiset{}
  {
    DiscardKeepsCore(a, drain, resets, false);
  }

  lemma DiscardRefines(a: State, b: State, drain: Trace, resets: bool)
    requires Refines(a, b) && Live(a) == multiset{} && a.open == map[]
    ensures Refines(Discard(a, drain, resets, false), Discard(b, drain, resets, true))
  {
    if a.used {
      var x, y := a.(used := false, draining := true), b.(used := false, draining := true);
      assert Live(x) == Live(a);
      FewerLiveRefines(a, b, x, y);
      SegmentRefines(x, y, drain);
      ClearRefines(Segment(x, drain), Segment(y, drain), resets);
    } else {
      assert Live(Discard(a, drain, resets, false)) == Live(a);
    }
  }

  lemma ClearRefines(a: State, b: State, resets: bool)
    requires Refines(a, b)
    ensures Refines(a.(draining := false, table := if resets then map[] else a.table, leaked := !resets, cleaned := resets),
                    b.(draining := false, table := if resets then map[] else b.table, leaked := !resets, cleaned := resets))
  {
    var x := a.(draining := false, table := if resets then map[] else a.table, leaked := !resets, cleaned := resets);
    assert Live(x) == Live(a);
    assert forall k :: !TakenIn(Live(a), a.open, k) ==> !Taken(x, k);
  }

  lemma FedAlike(a: State, b: State, id: nat)
    requires b == a.(table := b.table, removed := b.removed) && a.cur.chan != [] && id == a.cur.chan[0].call.id
    requires id in a.table <==> id in b.table
    requires id in a.table ==> a.table[id] == b.table[id]
    ensures Fed(b) == Fed(a).(table := b.table - {id}, removed := b.removed) && Fed(a).table == a.table - {id} && Fed(a).open == a.open && Fed(a).removed == a.removed
  {
  }

  lemma ClearedRefines(a: State, b: State, x: State, y: State, id: nat)
    requires Refines(a, b)
    requires forall c :: c in Live(x) ==> c in Live(a)
    requires x.table == a.table - {id} && x.open == a.open && x.removed == a.removed && y == x.(table := b.table - {id}, removed := b.removed)
    ensures Refines(x, y)
  {
    forall k | k in x.table && k !in y.table ensures !Taken(x, k) {
      assert k in a.table && k !in b.table;
      assert !TakenIn(Live(a), a.open, k);
    }
  }

  /** Both sides agree on the slot of an outstanding call. */
  lemma SharedSlot(a: State, b: State, c: Call)
    requires Refines(a, b) && c in Live(a)
    ensures c.id in a.table <==> c.id in b.table
    ensures c.id in a.table ==> a.table[c.id] == b.table[c.id]
  {
    assert TakenIn(Live(a), a.open, c.id);
  }

  lemma FedIsTaken(a: State)
    requires Conserved(a) && DistinctUids(a.queued) && a.looping && a.cur.chan != []
    ensures a.cur.chan[0].call in Live(a)
    ensures forall c :: c in Live(Fed(a)) ==> c in Live(a)
  {
    FedClears(a);
  }

  lemma FedRefines(a: State, b: State)
    requires Refines(a, b) && Conserved(a) && DistinctUids(a.queued) && a.looping && a.cur.chan != []
    ensures Refines(Fed(a), Fed(b))
  {
    var c0 := a.cur.chan[0].call;
    FedIsTaken(a);
    SharedSlot(a, b, c0);
    FedAlike(a, b, c0.id);
    ClearedRefines(a, b, Fed(a), Fed(b), c0.id);
  }

  lemma FeedRefines(a: State, b: State, tr: Trace)
    requires Refines(a, b) && Inv(a) && a.looping && a.cur.chan != []
    ensures Refines(FeedOk(a, tr), FeedOk(b, tr))
  {
    var x, y := Fed(a), Fed(b);
    FedRefines(a, b);
    SegmentRefines(x, y, tr);
    var t, u := Segment(x, tr), Segment(y, tr);
    FedKeepsCore(a);
    SegmentKeepsCore(x, tr);
    if t.error.Some? {
      StopRefines(t, u);
    } else {
      LaunchRefines(t, u);
    }
  }

  lemma LostRefines(a: State, b: State)
    requires Refines(a, b) && Conserved(a) && DistinctUids(a.queued) && a.looping && a.cur.chan != []
    ensures Refines(Lost(a, a.table), Lost(b, b.table))
  {
    hide Lost, Conserved, DistinctUids, Live;
    LostClears(a, a.table);
    LostFrame(a, a.table);
    LostAlike(a, b, a.table, b.table);
    FewerLiveRefines(a, b, Lost(a, a.table), Lost(b, b.table));
  }

  lemma DeletedRefines(a: State, b: State, id: nat)
    requires Refines(a, b) && Conserved(a) && DistinctUids(a.queued) && a.looping && a.cur.chan != []
    ensures Refines(Lost(a, a.table - {id}), Lost(b, b.table - {id}))
  {
    hide Lost, Conserved, DistinctUids, Live;
    LostClears(a, a.table - {id});
    LostFrame(a, a.table - {id});
    LostAlike(a, b, a.table - {id}, b.table - {id});
    ClearedRefines(a, b, Lost(a, a.table - {id}), Lost(b, b.table - {id}), id);
  }

  lemma LostAlike(a: State, b: State, ta: map<nat, Entry>, tb: map<nat, Entry>)
    requires b == a.(table := b.table, removed := b.removed) && a.cur.chan != []
    ensures Lost(b, tb) == Lost(a, ta).(table := tb, removed := b.removed)
  {
  }

  lemma BrokenRefines(a: State, b: State, reached: Reached)
    requires Refines(a, b) && Conserved(a) && DistinctUids(a.queued) && a.looping && a.cur.chan != []
    ensures Refines(Broken(a, reached), Broken(b, reached))
  {
    hide Fed, Lost, Conserved, DistinctUids;
    match reached
    case Untouched => LostRefines(a, b);
    case Deleted => DeletedRefines(a, b, a.cur.chan[0].call.id);
    case Settled => FedRefines(a, b);
  }

  lemma StopRefines(a: State, b: State)
    requires Refines(a, b)
    ensures Refines(StopWithError(a), StopWithError(b))
  {
    assert forall c :: c in Live(StopWithError(a)) ==> c in Live(a);
    FewerLiveRefines(a, b, StopWithError(a), StopWithError(b));
  }

  lemma FeedBreaksRefines(a: State, b: State, reached: Reached, tr: Trace)
    requires Refines(a, b) && Inv(a) && a.looping && a.cur.chan != []
    ensures Refines(FeedBroken(a, reached, tr), FeedBroken(b, reached, tr))
  {
    BrokenRefines(a, b, reached);
    SegmentRefines(Broken(a, reached), Broken(b, reached), tr);
    StopRefines(Segment(Broken(a, reached), tr), Segment(Broken(b, reached), tr));
  }

  lemma GoRefines(a: State, b: State, m: Move)
    requires Refines(a, b) && CanMove(a.cur, m)
    ensures Refines(Apply(a, Go(m), false), Apply(b, Go(m), true))
  {
    MoveKeepsBag(a.router, a.cur, m);
    FewerLiveRefines(a, b, Apply(a, Go(m), false), Apply(b, Go(m), true));
  }

  lemma StepRefines(a: State, b: State, st: Step)
    requires Refines(a, b) && Inv(a) && CanStep(a, st)
    ensures CanStep(b, st) && Refines(Apply(a, st, false), Apply(b, st, true))
  {
    hide Inv, BeginWith, FeedOk, FeedBroken, Taken;
    match st
    case Begin(drain, resets, body, async) => BeginRefines(a, b, drain, resets, body, async);
    case Feed(tr) => FeedRefines(a, b, tr);
    case FeedBreaks(reached, tr) => FeedBreaksRefines(a, b, reached, tr);
    case Go(m) => GoRefines(a, b, m);
    case BeginFailed => FewerLiveRefines(a, b, ResetState(a), ResetState(b));
    case Cancel => FewerLiveRefines(a, b, Apply(a, st, false), Apply(b, st, true));
    case GoPast(i, m) => FewerLiveRefines(a, b, Apply(a, st, false), Apply(b, st, true));
  }

  lemma {:induction false} RunRefines(a: State, b: State, steps: seq<Step>)
    requires Refines(a, b) && Inv(a) && Run(a, steps, false)
    ensures Run(b, steps, true) && Refines(After(a, steps, false), After(b, steps, true))
    decreases |steps|
  {
    if steps != [] {
      StepRefines(a, b, steps[0]);
      StepKeepsInv(a, steps[0], false);
      RunRefines(Apply(a, steps[0], false), Apply(b, steps[0], true), steps[1..]);
    }
  }

  /** The theorem: every run with the fast path is also a run with a clean-up
      before every invocation, and the two end in states that differ only in
      table entries that no outstanding call can reach. In particular the same
      promises were settled, in the same order, with the same outcomes. */
  lemma FastPathRefinesAlwaysCleaning(router: Router, steps: seq<Step>)
    requires Run(Init(router), steps, false)
    ensures Run(Init(router), steps, true)
    ensures var a, b := After(Init(router), steps, false), After(Init(router), steps, true);
      && a.settled == b.settled && a.queued == b.queued && a.cur == b.cur && a.past == b.past
      && a.result == b.result && a.error == b.error
      && (forall c :: c in Live(a) ==> (c.id in a.table <==> c.id in b.table) && (c.id in a.table ==> a.table[c.id] == b.table[c.id]))
  {
    InitInv(router);
    RunRefines(Init(router), Init(router), steps);
    var a := After(Init(router), steps, false);
    forall c | c in Live(a)
      ensures c.id in a.table <==> c.id in After(Init(router), steps, true).table
      ensures c.id in a.table ==> a.table[c.id] == After(Init(router), steps, true).table[c.id]
    {
      SharedSlot(a, After(Init(router), steps, true), c);
    }
  }

  /** When the fast path is taken, no leftover entry belongs to a call that
      reached the host: there is nothing to clean up but failed sends. */
  lemma FastPathLeavesOnlyFailedSends(router: Router, steps: seq<Step>, k: nat)
    requires Run(Init(router), steps, false)
    requires !After(Init(router), steps, false).used && !After(Init(router), steps, false).leaked && k in After(Init(router), steps, false).table
    ensures After(Init(router), steps, false).table[k].uid !in After(Init(router), steps, false).sent
  {
    InitInv(router);
    RunKeepsInv(Init(router), steps, false);
  }

  /** No script call takes an entry out, and no draw takes an id of the table. */
  ghost predicate Growing(s: State, tr: Trace)
    decreases |tr|
  {
    tr == [] || (
      && !tr[0].ScriptSettles? && !tr[0].ScriptResets?
      && (tr[0].Draw? ==> IdOf(s.drawn + 1) !in s.table)
      && Growing(Act(s, tr[0]), tr[1..]))
  }

  /** Every promise about to be sent has its entry. */
  ghost predicate Ready(s: State) {
    && (forall k :: k in s.table ==> k == IdOf(s.table[k].uid) && s.table[k].uid <= s.drawn)
    && (forall u :: u in s.open ==> IdOf(u) in s.table && s.table[IdOf(u)].uid == u)
    && (forall u :: u in s.sent || u in s.open ==> u <= s.drawn)
  }

  lemma ActGrows(s: State, a: Action)
    requires Ready(s) && Growing(s, [a])
    ensures Ready(Act(s, a)) && s.sent.Keys <= Act(s, a).sent.Keys
    ensures SentEntries(Act(s, a)) == SentEntries(s) + (Act(s, a).sent.Keys - s.sent.Keys)
  {
    hide Taken;
    var t := Act(s, a);
    if a.Draw? {
      forall u | u in SentEntries(s) ensures u in SentEntries(t) {
        var k :| k in s.table && s.table[k].uid in s.sent && s.table[k].uid == u;
        assert k in t.table && t.table[k] == s.table[k];
      }
    } else if a.Send? && a.uid in s.open {
      SendGrows(s, a.uid, a.params);
    }
  }

  lemma SendGrows(s: State, u: nat, p: string)
    requires Ready(s) && u in s.open
    ensures var t := DoSend(s, u, p);
      Ready(t) && t.sent.Keys == s.sent.Keys + {u} && SentEntries(t) == SentEntries(s) + (t.sent.Keys - s.sent.Keys)
  {
    var t := DoSend(s, u, p);
    forall v | v in SentEntries(s) ensures v in SentEntries(t) {
      var k :| k in s.table && s.table[k].uid in s.sent && s.table[k].uid == v;
      assert k in t.table && t.table[k].uid in t.sent;
    }
    assert IdOf(u) in t.table && t.table[IdOf(u)].uid in t.sent;
  }

  lemma {:induction false} ActsGrow(s: State, tr: Trace)
    requires Ready(s) && Growing(s, tr)
    ensures s.sent.Keys <= Acts(s, tr).sent.Keys
    ensures SentEntries(Acts(s, tr)) == SentEntries(s) + (Acts(s, tr).sent.Keys - s.sent.Keys)
    decreases |tr|
  {
    if tr != [] {
      var t := Act(s, tr[0]);
      assert Growing(s, [tr[0]]) by {
        assert [tr[0]][1..] == [];
      }
      ActGrows(s, tr[0]);
      ActsGrow(t, tr[1..]);
      var u := Acts(t, tr[1..]);
      assert (t.sent.Keys - s.sent.Keys) + (u.sent.Keys - t.sent.Keys) == u.sent.Keys - s.sent.Keys;
    }
  }

  /** Exactly when a clean-up leaves entries of calls that reached the host, none
      being left from before: calls were made since the last clean-up, __reset was
      interrupted, and there was such an entry already or a drained job made a call
      (as long as the drained jobs take no entry out and reuse no id). */
  lemma SentEntriesLeftIff(router: Router, steps: seq<Step>, drain: Trace, resets: bool)
    requires Run(Init(router), steps, false)
    requires var s := After(Init(router), steps, false); !s.looping && !s.leaked
    requires Growing(ResetState(After(Init(router), steps, false)).(used := false, draining := true), drain)
    ensures var s := After(Init(router), steps, false);
      var t := Discard(ResetState(s), drain, resets, false);
      SentEntries(t) != {} <==> s.used && !resets && (SentEntries(s) != {} || t.sent.Keys != s.sent.Keys)
  {
    var s := After(Init(router), steps, false);
    InitInv(router);
    RunKeepsInv(Init(router), steps, false);
    IdleIsReady(s);
    hide Inv, Run, After, Discard, SentEntries, Growing;
    LeftIff(ResetState(s), drain, resets);
  }

  lemma IdleIsReady(s: State)
    requires Inv(s) && !s.leaked
    ensures Ready(ResetState(s)) && SentEntries(ResetState(s)) == SentEntries(s)
    ensures !s.used ==> SentEntries(s) == {}
  {
  }

  lemma LeftIff(s: State, drain: Trace, resets: bool)
    requires Ready(s) && (!s.used ==> SentEntries(s) == {})
    requires Growing(s.(used := false, draining := true), drain)
    ensures var t := Discard(s, drain, resets, false);
      SentEntries(t) != {} <==> s.used && !resets && (SentEntries(s) != {} || t.sent.Keys != s.sent.Keys)
  {
    var a := s.(used := false, draining := true);
    assert SentEntries(a) == SentEntries(s);
    ActsGrow(a, drain);
    LeftAfter(s, drain, resets);
    hide Acts, Growing, SentEntries, Ready, Discard;
    NewKeys(s.sent.Keys, Acts(a, drain).sent.Keys);
  }

  lemma NewKeys(x: set<nat>, y: set<nat>)
    requires x <= y
    ensures y - x == {} <==> y == x
  {
    if y - x == {} {
      forall u | u in y ensures u in x {
        assert u !in y - x;
      }
    }
  }

  lemma LeftAfter(s: State, drain: Trace, resets: bool)
    ensures var a := Acts(s.(used := false, draining := true), drain);
      var t := Discard(s, drain, resets, false);
      && SentEntries(t) == (if !s.used then SentEntries(s) else if resets then {} else SentEntries(a))
      && t.sent == (if s.used then a.sent else s.sent)
  {
  }

  /** The failure of __reset is ignored: if its call is interrupted, the flag is
      down and the entries of the last invocation's calls are still there. */
  lemma InterruptedResetLeavesSentEntries(router: Router)
    ensures exists steps: seq<Step> ::
      Run(Init(router), steps, false) &&
      var s := After(Init(router), steps, false); !s.used && 1 in s.table && s.table[1].uid in s.sent
  {
    var s0 := Init(router);
    var st1 := Begin([], true, [Draw("m"), Send(1, "{}")], false);
    var st2 := Begin([], false, [], false);
    var s1 := Apply(s0, st1);
    OneSent(s0);
    var s2 := Apply(s1, st2);
    assert Acts(ResetState(s1).(used := false, draining := true), []).table == s1.table;
    assert Run(s2, []) && Run(s1, [st2]) by {
      assert [st2][1..] == [];
    }
    assert After(s1, [st2]) == s2;
    assert ([st1] + [st2])[1..] == [st2];
    assert Run(s0, [st1] + [st2]) && After(s0, [st1] + [st2]) == s2;
  }

  lemma OneSent(s0: State)
    requires s0 == Init(s0.router)
    ensures var s := BeginWith(s0, [], true, [Draw("m"), Send(1, "{}")], false, false);
      s.used && !s.looping && 1 in s.table && s.table[1].uid == 1 && 1 in s.sent
  {
    var body: Trace := [Draw("m"), Send(1, "{}")];
    var a := Discard(ResetState(s0), [], true, false);
    var b := Act(a, Draw("m"));
    var c := Act(b, Send(1, "{}"));
    assert body[1..] == [Send(1, "{}")];
    assert Acts(c, body[1..][1..]) == c;
    assert Acts(b, body[1..]) == c;
    assert Acts(a, body) == c;
  }
}
