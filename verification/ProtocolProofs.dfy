/** Every step of the settlement protocol keeps its invariant. */
module ProtocolProofs {
  import opened Rpc
  import opened PromiseIds
  import opened Protocol

  // ---------------------------------------------------------------- bags of calls

  lemma CallsConcat(a: seq<Result>, b: seq<Result>)
    ensures Calls(a + b) == Calls(a) + Calls(b)
  {
  }

  lemma RemoveFromBag<T>(q: seq<T>, k: nat)
    requires k < |q|
    ensures multiset(RemoveAt(q, k)) + multiset{q[k]} == multiset(q)
  {
    assert q == q[..k] + [q[k]] + q[k + 1..];
  }

  lemma RemoveFromCalls(rs: seq<Result>, k: nat)
    requires k < |rs|
    ensures multiset(Calls(RemoveAt(rs, k))) + multiset{rs[k].call} == multiset(Calls(rs))
  {
    RemoveFromBag(Calls(rs), k);
    assert Calls(RemoveAt(rs, k)) == RemoveAt(Calls(rs), k);
  }

  lemma LiveAreQueued(s: State)
    requires Conserved(s)
    ensures forall c :: c in Live(s) ==> c in s.queued
  {
    forall c | c in Live(s) ensures c in s.queued {
      assert c in multiset(s.queued);
    }
  }

  // ---------------------------------------------------------------- guest actions

  lemma DrawKeepsNumbered(s: State, m: string)
    requires Numbered(s)
    ensures Numbered(DoDraw(s, m))
  {
  }

  lemma DrawKeepsConserved(s: State, m: string)
    requires Conserved(s) && Computed(s) && Draining(s)
    ensures Conserved(DoDraw(s, m)) && Computed(DoDraw(s, m)) && Draining(DoDraw(s, m))
    ensures Live(DoDraw(s, m)) == Live(s)
  {
  }

  lemma DrawKeepsIsolated(s: State, m: string)
    requires Numbered(s) && Isolated(s) && Flagged(s) && Clean(s)
    ensures Isolated(DoDraw(s, m)) && Flagged(DoDraw(s, m)) && Clean(DoDraw(s, m))
  {
    assert Live(DoDraw(s, m)) == Live(s);
  }

  lemma DrawKeepsAgreed(s: State, m: string)
    requires Numbered(s) && Agreed(s)
    ensures Agreed(DoDraw(s, m))
  {
    var t := DoDraw(s, m);
    assert Live(t) == Live(s);
    if !t.torn {
      forall k | k in t.table && t.table[k].uid in t.sent && t.table[k].inv == t.inv
        ensures exists c :: c in Live(t) && c.uid == t.table[k].uid
      {
        assert k in s.table && s.table[k] == t.table[k];
      }
    }
  }

  lemma DrawKeepsOwned(s: State, m: string)
    requires Numbered(s) && Owned(s)
    ensures Owned(DoDraw(s, m))
  {
    assert Live(DoDraw(s, m)) == Live(s);
  }

  lemma DrawKeepsLogged(s: State, m: string)
    requires Numbered(s) && Logged(s)
    ensures Logged(DoDraw(s, m))
  {
  }

  lemma DrawKeepsCore(s: State, m: string)
    requires Core(s)
    ensures Core(DoDraw(s, m))
  {
    DrawKeepsNumbered(s, m);
    DrawKeepsConserved(s, m);
    DrawKeepsIsolated(s, m);
    DrawKeepsAgreed(s, m);
    DrawKeepsOwned(s, m);
    DrawKeepsLogged(s, m);
  }

  lemma LiveAfterSend(s: State, u: nat, p: string)
    requires u in s.open
    ensures Live(DoSend(s, u, p)) == Live(s) + multiset{SentCall(s, u, p)}
  {
  }

  lemma SendKeepsNumbered(s: State, u: nat, p: string)
    requires Numbered(s) && u in s.open
    ensures Numbered(DoSend(s, u, p))
  {
    var t := DoSend(s, u, p);
    assert forall c :: c in s.queued ==> c.uid != u;
    assert DistinctUids(t.queued);
  }

  lemma SendKeepsConserved(s: State, u: nat, p: string)
    requires Conserved(s) && Computed(s) && Draining(s) && u in s.open
    ensures Conserved(DoSend(s, u, p)) && Computed(DoSend(s, u, p)) && Draining(DoSend(s, u, p))
  {
    LiveAfterSend(s, u, p);
  }

  lemma SendKeepsIsolated(s: State, u: nat, p: string)
    requires Numbered(s) && Isolated(s) && Flagged(s) && Clean(s) && u in s.open
    ensures Isolated(DoSend(s, u, p)) && Flagged(DoSend(s, u, p)) && Clean(DoSend(s, u, p))
  {
    LiveAfterSend(s, u, p);
  }

  lemma SendKeepsAgreed(s: State, u: nat, p: string)
    requires Agreed(s) && u in s.open
    ensures Agreed(DoSend(s, u, p))
  {
    var t := DoSend(s, u, p);
    LiveAfterSend(s, u, p);
    if !t.torn {
      forall k | k in t.table && t.table[k].uid in t.sent && t.table[k].inv == t.inv
        ensures exists c :: c in Live(t) && c.uid == t.table[k].uid
      {
        if t.table[k].uid == u {
          assert SentCall(s, u, p) in Live(t);
        } else {
          var d :| d in Live(s) && d.uid == s.table[k].uid;
          assert d in Live(t);
        }
      }
    }
  }

  lemma SendKeepsOwned(s: State, u: nat, p: string)
    requires Numbered(s) && Owned(s) && u in s.open
    ensures Owned(DoSend(s, u, p))
  {
    LiveAfterSend(s, u, p);
  }

  lemma SendKeepsLogged(s: State, u: nat, p: string)
    requires Numbered(s) && Logged(s) && u in s.open
    ensures Logged(DoSend(s, u, p))
  {
  }

  lemma SendKeepsCore(s: State, u: nat, p: string)
    requires Core(s) && u in s.open
    ensures Core(DoSend(s, u, p))
  {
    SendKeepsNumbered(s, u, p);
    SendKeepsConserved(s, u, p);
    SendKeepsIsolated(s, u, p);
    SendKeepsAgreed(s, u, p);
    SendKeepsOwned(s, u, p);
    SendKeepsLogged(s, u, p);
  }

  lemma ActKeepsCore(s: State, a: Action)
    requires Core(s)
    ensures Core(Act(s, a))
    ensures var t := Act(s, a);
      t.looping == s.looping && t.draining == s.draining && t.torn == s.torn && t.inv == s.inv && t.cur == s.cur
  {
    hide Core, IdOf, Taken;
    match a
    case Draw(m) => DrawKeepsCore(s, m);
    case Send(u, p) => if u in s.open { SendKeepsCore(s, u, p); }
    case SetResult(j) => SignalKeepsCore(s, s.error, Some(j));
    case SetError(e) => SignalKeepsCore(s, Some(e), s.result);
    case ScriptSettles(id) => ScriptKeepsCore(s, {id});
    case ScriptResets => ScriptKeepsCore(s, s.table.Keys);
  }

  lemma ScriptKeepsLogged(s: State, ids: set<nat>)
    requires Numbered(s) && Logged(s)
    ensures Logged(ScriptRemoves(s, ids))
  {
    var t := ScriptRemoves(s, ids);
    forall k | k in t.table ensures t.table[k].uid !in t.removed {
      assert k in s.table && k == IdOf(s.table[k].uid);
    }
  }

  lemma ScriptKeepsOwned(s: State, ids: set<nat>)
    requires Numbered(s) && Owned(s)
    ensures Owned(ScriptRemoves(s, ids))
  {
    var t := ScriptRemoves(s, ids);
    assert Live(t) == Live(s);
    if !t.clash {
      forall c | c in Live(s) && !c.stale && c.uid !in t.removed ensures c.id in t.table {
        assert c.id in s.table && s.table[c.id].uid == c.uid;
      }
      forall u | u in t.open && u !in t.removed ensures IdOf(u) in t.table {
        assert IdOf(u) in s.table && s.table[IdOf(u)].uid == u;
      }
    }
  }

  lemma ScriptKeepsRest(s: State, ids: set<nat>)
    requires Core(s)
    ensures var t := ScriptRemoves(s, ids);
      && Numbered(t) && Conserved(t) && Computed(t) && Isolated(t) && Flagged(t) && Clean(t)
      && Agreed(t) && Draining(t) && Served(t)
  {
    var t := ScriptRemoves(s, ids);
    assert Live(t) == Live(s);
    assert AgreedFor(Live(s), t);
  }

  lemma ScriptKeepsCore(s: State, ids: set<nat>)
    requires Core(s)
    ensures Core(ScriptRemoves(s, ids))
  {
    ScriptKeepsRest(s, ids);
    ScriptKeepsOwned(s, ids);
    ScriptKeepsLogged(s, ids);
  }

  lemma SignalKeepsCore(s: State, error: Option<string>, result: Option<string>)
    requires Core(s)
    ensures Core(s.(error := error, result := result))
  {
    assert Live(s.(error := error, result := result)) == Live(s);
  }

  lemma {:induction false} ActsKeepCore(s: State, tr: Trace)
    requires Core(s)
    ensures Core(Acts(s, tr))
    ensures var t := Acts(s, tr);
      t.looping == s.looping && t.draining == s.draining && t.torn == s.torn && t.inv == s.inv && t.cur == s.cur
    decreases |tr|
  {
    if tr != [] {
      ActKeepsCore(s, tr[0]);
      ActsKeepCore(Act(s, tr[0]), tr[1..]);
    }
  }

  lemma SegmentKeepsCore(s: State, tr: Trace)
    requires Core(s)
    ensures Core(Segment(s, tr))
    ensures var t := Segment(s, tr);
      t.looping == s.looping && t.draining == s.draining && t.torn == s.torn && t.inv == s.inv && t.cur == s.cur
  {
    ActsKeepCore(s, tr);
    assert Live(Segment(s, tr)) == Live(Acts(s, tr));
  }

  // ---------------------------------------------------------------- goroutines

  /** Moving x from one bag of a sum to another leaves the sum as it was. */
  lemma Shift<T>(p: multiset<T>, a: multiset<T>, a': multiset<T>, q: multiset<T>, b: multiset<T>, b': multiset<T>, x: T)
    requires a' + multiset{x} == a && b' == b + multiset{x}
    ensures a' + b' == a + b
    ensures p + a' + b' == p + a + b
    ensures p + a' + q + b' == p + a + q + b
  {
    forall y ensures a'[y] + b'[y] == a[y] + b[y] {
      assert (a' + multiset{x})[y] == a[y];
    }
  }

  lemma WorkKeepsBag(router: Router, l: Loop, k: nat)
    requires k < |l.working|
    ensures InFlight(WorkLoop(router, l, k)) == InFlight(l)
  {
    var c, t := l.working[k], WorkLoop(router, l, k);
    RemoveFromBag(l.working, k);
    CallsConcat(l.ready, [RunHandler(router, c)]);
    assert Calls([RunHandler(router, c)]) == [c];
    Shift(multiset{}, multiset(l.working), multiset(t.working), multiset{}, multiset(Calls(l.ready)), multiset(Calls(t.ready)), c);
  }

  lemma PostKeepsBag(l: Loop, k: nat)
    requires k < |l.ready|
    ensures InFlight(PostLoop(l, k)) == InFlight(l)
  {
    var c, t := l.ready[k].call, PostLoop(l, k);
    RemoveFromCalls(l.ready, k);
    CallsConcat(l.chan, [l.ready[k]]);
    assert Calls([l.ready[k]]) == [c];
    Shift(multiset(l.working), multiset(Calls(l.ready)), multiset(Calls(t.ready)), multiset{}, multiset(Calls(l.chan)), multiset(Calls(t.chan)), c);
  }

  lemma DropKeepsBag(l: Loop, k: nat)
    requires k < |l.ready|
    ensures InFlight(DropLoop(l, k)) == InFlight(l)
  {
    var c, t := l.ready[k].call, DropLoop(l, k);
    RemoveFromCalls(l.ready, k);
    Shift(multiset(l.working), multiset(Calls(l.ready)), multiset(Calls(t.ready)), multiset(Calls(l.chan)), multiset(l.dropped), multiset(t.dropped), c);
  }

  lemma MoveKeepsBag(router: Router, l: Loop, m: Move)
    requires CanMove(l, m)
    ensures InFlight(MoveLoop(router, l, m)) == InFlight(l)
  {
    match m
    case Work(k) => WorkKeepsBag(router, l, k);
    case Post(k) => PostKeepsBag(l, k);
    case Drop(k) => DropKeepsBag(l, k);
  }

  lemma RunsOwnCall(router: Router, c: Call)
    ensures RunHandler(router, c).call == c
  {
  }

  lemma MoveKeepsComputed(s: State, m: Move)
    requires Computed(s) && CanMove(s.cur, m)
    ensures Computed(s.(cur := MoveLoop(s.router, s.cur, m)))
  {
    if m.Work? { RunsOwnCall(s.router, s.cur.working[m.k]); }
    hide RunHandler;
    var t := MoveLoop(s.router, s.cur, m);
    forall r | r in t.ready || r in t.chan ensures r == RunHandler(s.router, r.call) {
      if r !in s.cur.ready && r !in s.cur.chan {
        assert m.Work? && r == RunHandler(s.router, s.cur.working[m.k]);
      }
    }
  }

  lemma GoKeepsInv(s: State, m: Move)
    requires Inv(s) && CanMove(s.cur, m)
    ensures Inv(s.(cur := MoveLoop(s.router, s.cur, m)))
  {
    var t := s.(cur := MoveLoop(s.router, s.cur, m));
    MoveKeepsBag(s.router, s.cur, m);
    MoveKeepsComputed(s, m);
    SameBagKeepsInv(s, t);
  }

  /** Moving calls between the goroutines, the channel and the dropped ones
      changes nothing that the rest of the invariant looks at. */
  lemma SameBagKeepsInv(s: State, t: State)
    requires Inv(s) && Computed(t) && t == s.(cur := t.cur) && InFlight(t.cur) == InFlight(s.cur)
    requires t.cur.inflight == s.cur.inflight && t.cur.fed == s.cur.fed && t.cur.lost == s.cur.lost
    requires t.cur.dropped != [] ==> t.cur.cancelled
    ensures Inv(t)
  {
    assert Live(t) == Live(s);
    assert Conserved(t);
    assert Agreed(t);
  }

  lemma CancelKeepsInv(s: State)
    requires Inv(s)
    ensures Inv(s.(cur := s.cur.(cancelled := true)))
  {
    var t := s.(cur := s.cur.(cancelled := true));
    assert InFlight(t.cur) == InFlight(s.cur);
    SameBagKeepsInv(s, t);
  }

  lemma PastKeepsInv(s: State, past: seq<Loop>)
    requires Inv(s)
    ensures Inv(s.(past := past))
  {
    var t := s.(past := past);
    assert Live(t) == Live(s);
    assert AgreedFor(Live(s), t);
  }

  // ---------------------------------------------------------------- feeding a result back

  lemma {:induction false} DistinctBag(q: seq<Call>)
    requires DistinctUids(q)
    ensures forall c :: multiset(q)[c] <= 1
  {
    if q != [] {
      DistinctBag(q[1..]);
      assert q == [q[0]] + q[1..];
      assert q[0] !in q[1..];
    }
  }

  lemma Pop<T>(w: multiset<T>, r: multiset<T>, c: multiset<T>, c': multiset<T>, d: multiset<T>, x: T)
    requires c == multiset{x} + c'
    ensures w + r + c + d == (w + r + c' + d) + multiset{x}
  {
  }

  lemma ReceivedBag(l: Loop)
    requires l.chan != []
    ensures InFlight(l) == InFlight(l.(chan := l.chan[1..])) + multiset{l.chan[0].call}
  {
    var c0 := l.chan[0].call;
    assert l.chan == [l.chan[0]] + l.chan[1..];
    CallsConcat([l.chan[0]], l.chan[1..]);
    assert Calls([l.chan[0]]) == [c0];
    Pop(multiset(l.working), multiset(Calls(l.ready)), multiset(Calls(l.chan)), multiset(Calls(l.chan[1..])), multiset(l.dropped), c0);
  }

  /** A call taken out of the outstanding ones leaves none with its uid. */
  lemma TakenAlone(queued: seq<Call>, live: multiset<Call>, rest: multiset<Call>, c0: Call)
    requires DistinctUids(queued) && live <= multiset(queued) && live == rest + multiset{c0}
    ensures c0 in queued
    ensures forall c :: c in rest ==> c in live && c in queued && c.uid != c0.uid
  {
    DistinctBag(queued);
    assert c0 in live && c0 in multiset(queued);
    forall c | c in rest ensures c in live && c in queued && c.uid != c0.uid {
      assert c in live && c in multiset(queued);
      assert live[c0] <= multiset(queued)[c0] <= 1;
      assert c != c0;
    }
  }

  lemma LiveWithinQueued(s: State)
    requires Conserved(s)
    ensures Live(s) <= multiset(s.queued)
  {
  }

  /** `t` is `s` after the outstanding call c0 was taken out and its slot cleared. */
  ghost predicate ClearedFor(s: State, live: multiset<Call>, t: State, rest: multiset<Call>, c0: Call) {
    && c0 in live && c0 in s.queued
    && (forall c :: c in rest ==> c in live && c in s.queued && c.uid != c0.uid)
    && (forall c :: c in live && c != c0 ==> c in rest)
    && t.table == s.table - {c0.id}
    && t == s.(table := t.table, settled := t.settled, cur := t.cur)
  }

  lemma FedBag(s: State)
    requires s.cur.chan != []
    ensures InFlight(s.cur) == InFlight(Fed(s).cur) + multiset{s.cur.chan[0].call}
  {
    ReceivedBag(s.cur);
    assert InFlight(Fed(s).cur) == InFlight(s.cur.(chan := s.cur.chan[1..]));
  }

  lemma FedLive(s: State)
    requires s.looping && s.cur.chan != []
    ensures Live(s) == Live(Fed(s)) + multiset{s.cur.chan[0].call}
  {
    var p, before, after, c0 := multiset(s.pending), InFlight(s.cur), InFlight(Fed(s).cur), s.cur.chan[0].call;
    FedBag(s);
    assert p + (after + multiset{c0}) == (p + after) + multiset{c0};
  }

  lemma FedLoop(s: State)
    requires s.cur.chan != []
    ensures Fed(s).cur == s.cur.(chan := s.cur.chan[1..], fed := s.cur.fed + [s.cur.chan[0].call], inflight := s.cur.inflight - 1)
  {
  }

  lemma FedFrame(s: State)
    requires s.cur.chan != []
    ensures Fed(s).table == s.table - {s.cur.chan[0].call.id}
    ensures Fed(s) == s.(table := Fed(s).table, settled := Fed(s).settled, cur := Fed(s).cur)
  {
  }

  lemma FedClears(s: State)
    requires Conserved(s) && DistinctUids(s.queued) && s.looping && s.cur.chan != []
    ensures ClearedFor(s, Live(s), Fed(s), Live(Fed(s)), s.cur.chan[0].call)
  {
    var live, rest, c0 := Live(s), Live(Fed(s)), s.cur.chan[0].call;
    FedLive(s);
    FedFrame(s);
    LiveWithinQueued(s);
    TakenAlone(s.queued, live, rest, c0);
    forall c | c in live && c != c0 ensures c in rest {
      assert live[c] == rest[c];
    }
  }

  lemma ClearedKeepsAgreed(s: State, live: multiset<Call>, t: State, rest: multiset<Call>, c0: Call)
    requires Numbered(s) && AgreedFor(live, s) && ClearedFor(s, live, t, rest, c0)
    ensures AgreedFor(rest, t)
  {
    if !t.torn {
      forall k | k in t.table && t.table[k].uid in t.sent && t.table[k].inv == t.inv
        ensures exists c :: c in rest && c.uid == t.table[k].uid
      {
        var d :| d in live && d.uid == s.table[k].uid;
        assert d != c0;
        assert d in rest;
      }
    }
  }

  lemma ClearedKeepsOwned(s: State, live: multiset<Call>, t: State, rest: multiset<Call>, c0: Call)
    requires Numbered(s) && OwnedFor(live, s) && s.open == map[] && ClearedFor(s, live, t, rest, c0)
    ensures OwnedFor(rest, t)
  {
    if !t.clash {
      forall c | c in rest && !c.stale && c.uid !in t.removed ensures c.id in t.table {
        assert c.id in s.table && s.table[c.id].uid == c.uid;
        assert c.id != c0.id;
      }
    }
  }

  lemma ClearedKeepsRest(s: State, live: multiset<Call>, t: State, rest: multiset<Call>, c0: Call)
    requires Numbered(s) && Flagged(s) && Clean(s) && IsolatedFor(live, s) && DrainingFor(live, s) && s.open == map[]
    requires ClearedFor(s, live, t, rest, c0)
    ensures Numbered(t) && Flagged(t) && Clean(t) && IsolatedFor(rest, t) && DrainingFor(rest, t)
  {
  }

  lemma ClearedKeepsLogged(s: State, live: multiset<Call>, t: State, rest: multiset<Call>, r: Result)
    requires Numbered(s) && IsolatedFor(live, s) && OwnedFor(live, s) && Logged(s) && s.open == map[]
    requires ClearedFor(s, live, t, rest, r.call) && r == RunHandler(s.router, r.call)
    requires t.settled == s.settled + Told(s.table, r)
    ensures Logged(t)
  {
    if r.call.id in s.table {
      var x := Settlement(s.table[r.call.id].uid, s.table[r.call.id].inv, r.call, OutcomeOf(r));
      assert t.settled == s.settled + [x];
      assert forall y :: y in s.settled ==> y.uid != x.uid;
      assert forall y :: y in t.settled ==> y in s.settled || y == x;
    }
  }

  lemma FedKeepsComputed(s: State)
    requires Computed(s) && s.cur.chan != []
    ensures Computed(Fed(s))
  {
    hide Fed, RunHandler;
    FedFrame(s);
    FedLoop(s);
  }

  lemma FedKeepsConserved(s: State)
    requires Conserved(s) && s.cur.chan != []
    ensures Conserved(Fed(s))
  {
    hide Fed, InFlight;
    var t, c0 := Fed(s), s.cur.chan[0].call;
    var before, after := InFlight(s.cur), InFlight(t.cur);
    FedBag(s);
    FedLoop(s);
    FedFrame(s);
    assert |before| == |after| + 1;
    assert multiset(t.cur.fed) == multiset(s.cur.fed) + multiset{c0};
    Shift(multiset(s.pending), before, after, multiset{}, multiset(s.cur.fed), multiset(t.cur.fed), c0);
  }

  lemma FedKeepsServed(s: State, live: multiset<Call>)
    requires Numbered(s) && IsolatedFor(live, s) && OwnedFor(live, s) && Served(s) && Computed(s)
    requires s.cur.chan != [] && s.cur.chan[0].call in live && s.cur.chan[0].call in s.queued
    ensures Served(Fed(s))
  {
    var t, r := Fed(s), s.cur.chan[0];
    assert r in s.cur.chan;
    FedLoop(s);
    FedFrame(s);
    FedSettles(s);
    hide Fed, RunHandler, OutcomeOf;
    if !t.clash {
      forall c | c in t.cur.fed && !c.stale && c.uid !in t.removed
        ensures Settlement(c.uid, t.inv, c, Answer(t.router, c)) in t.settled
      {
        if c !in s.cur.fed {
          assert c == r.call && c.id in s.table;
        }
      }
    }
  }

  lemma FedSettled(s: State)
    requires s.cur.chan != []
    ensures Fed(s).settled == s.settled + Told(s.table, s.cur.chan[0])
  {
  }

  lemma FedSettles(s: State)
    requires s.cur.chan != []
    ensures forall x :: x in s.settled ==> x in Fed(s).settled
    ensures var r := s.cur.chan[0];
      r.call.id in s.table ==>
        Settlement(s.table[r.call.id].uid, s.table[r.call.id].inv, r.call, OutcomeOf(r)) in Fed(s).settled
  {
    hide Fed, OutcomeOf;
    FedSettled(s);
    var told := Told(s.table, s.cur.chan[0]);
    assert forall x :: x in told ==> x in s.settled + told;
    assert s.cur.chan[0].call.id in s.table ==> told[0] in told;
  }

  lemma FedKeepsCore(s: State)
    requires Inv(s) && s.looping && s.cur.chan != []
    ensures Core(Fed(s))
  {
    var t, r := Fed(s), s.cur.chan[0];
    assert r in s.cur.chan;
    FedSettled(s);
    hide Fed, Live, Told, RunHandler, Conserved;
    FedClears(s);
    FedKeepsConserved(s);
    FedKeepsComputed(s);
    ClearedKeepsAgreed(s, Live(s), t, Live(t), r.call);
    ClearedKeepsOwned(s, Live(s), t, Live(t), r.call);
    ClearedKeepsRest(s, Live(s), t, Live(t), r.call);
    ClearedKeepsLogged(s, Live(s), t, Live(t), r);
    FedKeepsServed(s, Live(s));
  }

  lemma StopKeepsInv(s: State)
    requires Core(s) && s.open == map[] && !s.draining
    ensures Inv(StopWithError(s))
  {
    var t := StopWithError(s);
    assert InFlight(t.cur) == InFlight(s.cur);
    assert forall c :: c in Live(t) ==> c in Live(s);
  }

  lemma LaunchedBag(s: State)
    ensures InFlight(Launch(s).cur) == InFlight(s.cur) + multiset(s.pending)
  {
    var w, p := multiset(s.cur.working), multiset(s.pending);
    var r, c, d := multiset(Calls(s.cur.ready)), multiset(Calls(s.cur.chan)), multiset(s.cur.dropped);
    assert multiset(Launch(s).cur.working) == w + p;
    assert w + p + r + c + d == (w + r + c + d) + p;
  }

  lemma LaunchConserves(s: State)
    requires Conserved(s)
    ensures Conserved(Launch(s))
    ensures s.looping || InFlight(s.cur) == multiset{} ==> Live(Launch(s)) == Live(s)
  {
    var t, p := Launch(s), multiset(s.pending);
    LaunchedBag(s);
    assert |InFlight(t.cur)| == |InFlight(s.cur)| + |s.pending|;
    assert p + InFlight(s.cur) == InFlight(t.cur);
    if !t.looping {
      assert InFlight(t.cur) == multiset{};
    }
  }

  lemma LaunchKeepsInv(s: State)
    requires Core(s) && s.open == map[] && !s.draining && !s.torn
    requires s.looping || InFlight(s.cur) == multiset{}
    ensures Inv(Launch(s))
  {
    var t := Launch(s);
    LaunchConserves(s);
    assert AgreedFor(Live(s), t);
    if !t.looping {
      assert |InFlight(t.cur)| == 0;
    }
  }

  lemma FeedKeepsInv(s: State, tr: Trace)
    requires Inv(s) && s.looping && s.cur.chan != []
    ensures Inv(FeedOk(s, tr))
  {
    FedKeepsCore(s);
    FedFrame(s);
    SegmentKeepsCore(Fed(s), tr);
    var t := Segment(Fed(s), tr);
    assert t.open == map[];
    hide Core, Fed, Segment, Launch, StopWithError;
    if t.error.Some? {
      StopKeepsInv(t);
    } else {
      LaunchKeepsInv(t);
    }
  }

  lemma LostBag(s: State, table: map<nat, Entry>)
    requires s.cur.chan != []
    ensures InFlight(s.cur) == InFlight(Lost(s, table).cur) + multiset{s.cur.chan[0].call}
  {
    ReceivedBag(s.cur);
    assert InFlight(Lost(s, table).cur) == InFlight(s.cur.(chan := s.cur.chan[1..]));
  }

  lemma LostFrame(s: State, table: map<nat, Entry>)
    requires s.cur.chan != []
    ensures var t := Lost(s, table);
      && t == s.(torn := true, table := table, cur := t.cur)
      && t.cur == s.cur.(chan := s.cur.chan[1..], lost := s.cur.lost + [s.cur.chan[0].call], inflight := s.cur.inflight - 1)
  {
  }

  lemma LostKeepsConserved(s: State, table: map<nat, Entry>)
    requires Conserved(s) && Computed(s) && s.cur.chan != []
    ensures Conserved(Lost(s, table)) && Computed(Lost(s, table))
  {
    hide InFlight, Lost, RunHandler;
    var t, c0 := Lost(s, table), s.cur.chan[0].call;
    var before, after := InFlight(s.cur), InFlight(t.cur);
    LostBag(s, table);
    LostFrame(s, table);
    assert |before| == |after| + 1;
    assert multiset(t.cur.lost) == multiset(s.cur.lost) + multiset{c0};
    Shift(multiset(s.pending), before, after, multiset(s.cur.fed), multiset(s.cur.lost), multiset(t.cur.lost), c0);
  }

  lemma LostClears(s: State, table: map<nat, Entry>)
    requires Conserved(s) && DistinctUids(s.queued) && s.looping && s.cur.chan != []
    ensures forall c :: c in Live(Lost(s, table)) ==> c in Live(s) && c.uid != s.cur.chan[0].call.uid
    ensures s.cur.chan[0].call in s.queued && s.cur.chan[0].call in Live(s)
  {
    var c0, t := s.cur.chan[0].call, Lost(s, table);
    var p, after := multiset(s.pending), InFlight(t.cur);
    LostBag(s, table);
    LostFrame(s, table);
    hide InFlight, Lost;
    assert p + (after + multiset{c0}) == (p + after) + multiset{c0};
    assert Live(t) == p + after;
    LiveWithinQueued(s);
    TakenAlone(s.queued, Live(s), p + after, c0);
  }

  lemma LostKeepsOwned(s: State, live: multiset<Call>, t: State, rest: multiset<Call>, c0: Call)
    requires Numbered(s) && OwnedFor(live, s) && s.open == map[] && c0 in live && c0 in s.queued
    requires t == s.(torn := true, table := t.table, cur := t.cur)
    requires t.table == s.table || t.table == s.table - {c0.id}
    requires forall c :: c in rest ==> c in live && c.uid != c0.uid
    ensures OwnedFor(rest, t)
  {
    if !t.clash {
      forall c | c in rest && !c.stale && c.uid !in t.removed ensures c.id in t.table {
        assert c.id in s.table && s.table[c.id].uid == c.uid;
        if c0.id in s.table { assert s.table[c0.id].uid == c0.uid; }
      }
    }
  }

  lemma LostKeepsRest(s: State, t: State, live: multiset<Call>, rest: multiset<Call>)
    requires Core(s) && s.open == map[] && Conserved(t) && Computed(t)
    requires t == s.(torn := true, table := t.table, cur := t.cur) && t.cur.fed == s.cur.fed
    requires forall k :: k in t.table ==> k in s.table && t.table[k] == s.table[k]
    requires live == Live(s) && rest == Live(t) && OwnedFor(rest, t) && forall c :: c in rest ==> c in live
    ensures Core(t)
  {
    hide Live, OwnedFor, Conserved, Computed;
    assert IsolatedFor(rest, t);
    assert DrainingFor(rest, t);
  }

  lemma LostKeepsCore(s: State, cleared: bool)
    requires Inv(s) && s.looping && s.cur.chan != []
    ensures Core(Lost(s, if cleared then s.table - {s.cur.chan[0].call.id} else s.table))
  {
    var table := if cleared then s.table - {s.cur.chan[0].call.id} else s.table;
    var t := Lost(s, table);
    LostKeepsConserved(s, table);
    LostClears(s, table);
    LostFrame(s, table);
    LostKeepsOwned(s, Live(s), t, Live(t), s.cur.chan[0].call);
    hide Lost, Live, OwnedFor, Conserved, Computed, Core, Inv;
    LostKeepsRest(s, t, Live(s), Live(t));
  }

  lemma BrokenKeepsCore(s: State, reached: Reached)
    requires Inv(s) && s.looping && s.cur.chan != []
    ensures Core(Broken(s, reached)) && Broken(s, reached).open == map[] && !Broken(s, reached).draining
  {
    match reached
    case Untouched => LostKeepsCore(s, false);
    case Deleted => LostKeepsCore(s, true);
    case Settled =>
      FedKeepsCore(s);
      FedFrame(s);
  }

  lemma FeedBreaksKeepsInv(s: State, reached: Reached, tr: Trace)
    requires Inv(s) && s.looping && s.cur.chan != []
    ensures Inv(FeedBroken(s, reached, tr))
  {
    BrokenKeepsCore(s, reached);
    SegmentKeepsCore(Broken(s, reached), tr);
    StopKeepsInv(Segment(Broken(s, reached), tr));
  }

  // ---------------------------------------------------------------- starting an invocation

  lemma ResetKeepsInv(s: State)
    requires Inv(s) && !s.looping
    ensures Inv(ResetState(s))
    ensures Live(ResetState(s)) == multiset{}
  {
    assert InFlight(EmptyLoop()) == multiset{};
  }

  lemma DiscardKeepsCore(s: State, drain: Trace, resets: bool, always: bool)
    requires Inv(s) && !s.torn && Live(s) == multiset{} && !s.looping && s.cur == EmptyLoop()
    ensures var t := Discard(s, drain, resets, always);
      Core(t) && t.open == map[] && !t.looping && !t.draining && !t.torn && t.cur == s.cur
  {
    if s.used {
      DrainKeepsCore(s, drain);
      ClearKeepsCore(Segment(s.(used := false, draining := true), drain), resets);
    } else {
      var t := Discard(s, drain, resets, always);
      assert Live(t) == Live(s);
      assert Core(t);
    }
  }

  lemma DrainKeepsCore(s: State, drain: Trace)
    requires Inv(s) && !s.torn && Live(s) == multiset{}
    ensures var t := Segment(s.(used := false, draining := true), drain);
      Core(t) && t.open == map[] && t.draining && t.looping == s.looping && !t.torn && t.cur == s.cur
  {
    var a := s.(used := false, draining := true);
    assert Live(a) == Live(s);
    SegmentKeepsCore(a, drain);
  }

  lemma ClearKeepsCore(s: State, resets: bool)
    requires Core(s) && s.open == map[] && s.draining
    ensures Core(s.(draining := false, table := if resets then map[] else s.table, leaked := !resets, cleaned := resets))
  {
    if resets {
      ClearedKeepsCore(s);
    } else {
      UnclearedKeepsCore(s);
    }
  }

  lemma ClearedKeepsCore(s: State)
    requires Core(s) && s.open == map[] && s.draining
    ensures Core(s.(draining := false, table := map[], leaked := false, cleaned := true))
  {
    var t := s.(draining := false, table := map[], leaked := false, cleaned := true);
    assert Live(t) == Live(s);
    assert forall c :: c in Live(t) ==> c.stale;
  }

  lemma UnclearedKeepsCore(s: State)
    requires Core(s) && s.open == map[] && s.draining
    ensures Core(s.(draining := false, leaked := true, cleaned := false))
  {
    assert Live(s.(draining := false, leaked := true, cleaned := false)) == Live(s);
  }

  lemma BeginKeepsInv(s: State, drain: Trace, resets: bool, body: Trace, async: bool, always: bool)
    requires Inv(s) && !s.looping
    ensures Inv(BeginWith(s, drain, resets, body, async, always))
  {
    ResetKeepsInv(s);
    var a := ResetState(s);
    assert InFlight(a.cur) == multiset{};
    DiscardKeepsCore(a, drain, resets, always);
    var b := Discard(a, drain, resets, always);
    SegmentKeepsCore(b, body);
    var t := Segment(b, body);
    if async && t.pending != [] {
      LaunchKeepsInv(t);
    }
  }

  // ---------------------------------------------------------------- runs

  lemma InitInv(router: Router)
    ensures Inv(Init(router))
  {
    assert InFlight(EmptyLoop()) == multiset{};
  }

  lemma StepKeepsInv(s: State, st: Step, always: bool)
    requires Inv(s) && CanStep(s, st)
    ensures Inv(Apply(s, st, always))
  {
    match st
    case Begin(drain, resets, body, async) => BeginKeepsInv(s, drain, resets, body, async, always);
    case BeginFailed => ResetKeepsInv(s);
    case Go(m) => GoKeepsInv(s, m);
    case GoPast(i, m) => PastKeepsInv(s, Apply(s, st, always).past);
    case Cancel => CancelKeepsInv(s);
    case Feed(tr) => FeedKeepsInv(s, tr);
    case FeedBreaks(reached, tr) => FeedBreaksKeepsInv(s, reached, tr);
  }

  /** The invariant holds at the end of every run. */
  lemma {:induction false} RunKeepsInv(s: State, steps: seq<Step>, always: bool)
    requires Inv(s) && Run(s, steps, always)
    ensures Inv(After(s, steps, always))
    decreases |steps|
  {
    if steps != [] {
      StepKeepsInv(s, steps[0], always);
      RunKeepsInv(Apply(s, steps[0], always), steps[1..], always);
    }
  }
}
