/** rpcForwarder as the object it is (kafig-cli/rpc_forward.go): a counter and a
    map of channels updated in place, proved to take the steps of the transition
    system. Each method is one critical section or one channel operation. */
module ForwardCalls {
  import opened Rpc
  import opened Forwarder

  /** `make(chan rpcResponseMsg, 1)` */
  class Channel {
    var slot: Option<Response>

    constructor ()
      ensures slot == None
    {
      slot := None;
    }
  }

  class RpcForwarder {
    var nextID: nat
    var pending: map<nat, Channel>
    /** The channel of every Forward call so far, and the state they are in. */
    ghost var channels: seq<Channel>
    ghost var st: State

    ghost predicate Valid()
      reads this, channels
    {
      && nextID == st.nextID == |st.calls| == |channels|
      && (forall id :: id in pending ==> 1 <= id <= nextID)
      && (forall i, j :: 0 <= i < j < |channels| ==> channels[i] != channels[j])
      && (forall k :: 0 <= k < |channels| ==> channels[k].slot == st.calls[k].chan)
      && pending.Keys == st.pending.Keys
      && (forall id :: id in pending ==> st.pending[id] < |channels| && pending[id] == channels[st.pending[id]])
    }

    constructor ()
      ensures Valid() && st == Init() && fresh(channels)
    {
      nextID, pending, channels, st := 0, map[], [], Init();
    }

    /** `f.nextID.Add(1)` and the new channel. */
    method Draw() returns (id: nat, ch: Channel)
      requires Valid()
      modifies this
      ensures Valid() && st == Apply(old(st), Start) && channels == old(channels) + [ch] && fresh(ch)
      ensures id == old(nextID) + 1 && pending == old(pending)
    {
      ch := new Channel();
      nextID := nextID + 1;
      id := nextID;
      channels := channels + [ch];
      st := Apply(st, Start);
    }

    /** `f.pending[id] = ch` */
    method Insert(id: nat, ch: Channel)
      requires Valid() && 1 <= id <= |channels| && At(st, id - 1, Started) && st.calls[id - 1].id == id && ch == channels[id - 1]
      modifies this
      ensures Valid() && st == Apply(old(st), Register(id - 1)) && channels == old(channels)
      ensures pending == old(pending)[id := ch]
    {
      pending := pending[id := ch];
      st := Apply(st, Register(id - 1));
    }

    /** `delete(f.pending, id)` */
    method Delete(id: nat)
      requires Valid() && 1 <= id <= |channels| && CanStep(st, Unregister(id - 1)) && st.calls[id - 1].id == id
      modifies this
      ensures Valid() && st == Apply(old(st), Unregister(id - 1)) && channels == old(channels)
      ensures pending == old(pending) - {id}
    {
      pending := pending - {id};
      st := Apply(st, Unregister(id - 1));
    }

    /** Deliver up to its send: the channel it will send to, if any. */
    method Find(resp: Response) returns (ch: Option<Channel>)
      requires Valid() && st.reader == Scanning && st.input != [] && st.input[0] == AnswerLine(resp)
      modifies this`st
      ensures Valid() && st == Apply(old(st), Scan)
      ensures ch.Some? <==> st.reader.Sending?
      ensures ch.Some? ==> st.reader.k < |channels| && st.reader.resp == resp && ch.value == channels[st.reader.k]
    {
      ch := if resp.id in pending then Some(pending[resp.id]) else None;
      st := Apply(st, Scan);
    }

    /** `ch <- resp`, which goes ahead exactly when the channel is empty. */
    method Send(ch: Channel, resp: Response) returns (blocked: bool)
      requires Valid() && st.reader.Sending? && resp == st.reader.resp && st.reader.k < |channels| && ch == channels[st.reader.k]
      modifies this`st, ch
      ensures Valid() && blocked == !CanStep(old(st), Step.Send)
      ensures if blocked then st == old(st) else st == Apply(old(st), Step.Send)
      ensures ch.slot == if blocked then old(ch.slot) else Some(resp)
    {
      if ch.slot.Some? {
        return true;
      }
      ch.slot := Some(resp);
      st := Apply(st, Step.Send);
      blocked := false;
    }

    /** Deliver, for the answer on the next line of input. Only the channel of the
        call it answers can change. */
    method Deliver(resp: Response) returns (blocked: bool)
      requires Valid() && st.reader == Scanning && st.input != [] && st.input[0] == AnswerLine(resp)
      modifies this`st, channels
      ensures Valid() && channels == old(channels)
      ensures Reaches(old(st), st) && SameStages(old(st), st) && st.input == old(st).input[1..]
      ensures if blocked then st.reader.Sending? && !CanStep(st, Step.Send) else st.reader == Scanning
      ensures forall k :: 0 <= k < |channels| ==>
        channels[k].slot == old(channels[k].slot) || channels[k].slot == Some(resp)
    {
      hide Reaches, Apply;
      ghost var s0 := st;
      ScanStep(s0);
      var ch := Find(resp);
      ghost var s1 := st;
      if ch.None? {
        return false;
      }
      blocked := Send(ch.value, resp);
      if !blocked {
        SendStep(s0, s1);
      }
    }

    /** Forward up to the end of its first critical section. */
    method Enter() returns (id: nat, ch: Channel)
      requires Valid()
      modifies this
      ensures Valid() && Reaches(old(st), st) && id == nextID == old(nextID) + 1 && fresh(ch)
      ensures channels == old(channels) + [ch] && pending == old(pending)[id := ch] && id !in old(pending)
      ensures st.reader == old(st).reader && st.input == old(st).input
      ensures At(st, id - 1, Registered) && st.calls[id - 1].id == id && ch.slot.None?
    {
      ghost var s0 := st;
      id, ch := Draw();
      OneStep(s0, Start);
      Insert(id, ch);
      OneStep(Apply(s0, Start), Register(id - 1));
      ReachesOn(s0, Apply(s0, Start), st);
    }

    /** A step of a call that touches neither the map nor a channel. */
    ghost method Advance(s0: State, step: Step, k: nat, stage: Stage)
      requires Valid() && Reaches(s0, st) && CanStep(st, step)
      requires
        || (step == Write(k, true) && stage == Waiting)
        || (step == Write(k, false) && stage == Leaving(WriteFailed))
        || (step == Cancel(k) && stage == Leaving(Cancelled))
      modifies this`st
      ensures Valid() && Reaches(s0, st) && st == Move(old(st), k, stage)
    {
      OneStep(st, step);
      ReachesOn(s0, st, Apply(st, step));
      st := Apply(st, step);
    }

    /** `resp := <-ch` */
    method Take(ghost s0: State, ghost id: nat, ch: Channel) returns (resp: Response)
      requires Valid() && Reaches(s0, st) && 1 <= id <= |channels| && ch == channels[id - 1] && CanStep(st, Receive(id - 1))
      modifies this`st, ch
      ensures Valid() && Reaches(s0, st) && st == Apply(old(st), Receive(id - 1))
      ensures Some(resp) == old(ch.slot) && |st.calls| == |old(st).calls|
      ensures st.calls[id - 1] == Forwarder.Forward(old(st).calls[id - 1].id, Leaving(Answered(resp)), None)
    {
      OneStep(st, Receive(id - 1));
      ReachesOn(s0, st, Apply(st, Receive(id - 1)));
      resp := ch.slot.value;
      ch.slot := None;
      st := Apply(st, Receive(id - 1));
    }

    /** The deferred delete. */
    method Finish(ghost s0: State, id: nat)
      requires Valid() && Reaches(s0, st) && 1 <= id <= |channels| && CanStep(st, Unregister(id - 1)) && st.calls[id - 1].id == id
      modifies this
      ensures Valid() && Reaches(s0, st) && pending == old(pending) - {id}
    {
      OneStep(st, Unregister(id - 1));
      ReachesOn(s0, st, Apply(st, Unregister(id - 1)));
      Delete(id);
    }

    /** The reader goroutine, if it is scanning: it delivers the answers in front of
        these lines, until one of them blocks it. */
    method DeliverAll(ghost s0: State, lines: seq<Line>, reading: bool)
      requires Valid() && Reaches(s0, st) && st.input == lines && reading == (st.reader == Scanning)
      modifies this`st, channels
      ensures Valid() && Reaches(s0, st) && SameStages(old(st), st)
      ensures forall k :: 0 <= k < |channels| ==>
        channels[k].slot == old(channels[k].slot) ||
        (channels[k].slot.Some? && AnswerLine(channels[k].slot.value) in lines)
    {
      hide Reaches;
      var i, stopped := 0, !reading;
      while i < |lines| && lines[i].AnswerLine? && !stopped
        invariant i <= |lines| && Valid() && Reaches(s0, st) && SameStages(old(st), st) && st.input == lines[i..]
        invariant forall k :: 0 <= k < |channels| ==>
          channels[k].slot == old(channels[k].slot) ||
          (channels[k].slot.Some? && AnswerLine(channels[k].slot.value) in lines)
        invariant !stopped ==> st.reader == Scanning
      {
        ghost var s1 := st;
        stopped := Deliver(lines[i].resp);
        ReachesOn(s0, s1, st);
        i := i + 1;
      }
    }

    /** Forward. `writes` is whether the request could be written, `lines` the input
        that the reader finds while the call waits, `reading` whether it is scanning,
        `cancelled` whether the context is done by then; None means that the call
        goes on waiting. */
    method Forward(writes: bool, lines: seq<Line>, reading: bool, cancelled: bool) returns (ret: Option<Return>)
      requires Valid() && Inv(st) && st.input <= lines && reading == (st.reader == Scanning)
      modifies this, channels
      ensures Valid() && Reaches(old(st), st)
      ensures ret.Some? ==> pending == old(pending)
      ensures ret == Some(WriteFailed) <==> !writes
      ensures ret == Some(Cancelled) ==> cancelled
      ensures ret.Some? && ret.value.Answered? ==>
        AnswerLine(ret.value.resp) in lines && ret.value.resp.id == old(nextID) + 1
      ensures ret.None? ==> !cancelled && At(st, old(nextID), Waiting) && st.calls[old(nextID)].chan == None
    {
      hide Reaches, Inv, Apply, Run, After;
      ghost var s0, before := st, pending;
      var id, ch := Request(writes);
      InsertDelete(before, id, ch);
      if !writes {
        Finish(s0, id);
        return Some(WriteFailed);
      }
      Arrive(s0, lines);
      DeliverAll(s0, lines, reading);
      ReachesKeepsInv(s0, st);
      ret := Select(s0, id, ch, cancelled);
    }

    /** The client sends the rest of these lines. */
    ghost method Arrive(s0: State, lines: seq<Line>)
      requires Valid() && Reaches(s0, st) && st.input <= lines
      modifies this`st
      ensures Valid() && Reaches(s0, st) && st.input == lines
      ensures st == old(st).(input := lines, polite := st.polite)
    {
      var rest := lines[|st.input|..];
      FillReaches(st, rest);
      ReachesOn(s0, st, Fill(st, rest));
      st := Fill(st, rest);
    }

    /** Forward up to its select. */
    method Request(writes: bool) returns (id: nat, ch: Channel)
      requires Valid()
      modifies this
      ensures Valid() && Reaches(old(st), st) && id == nextID == old(nextID) + 1 && fresh(ch) && ch.slot.None?
      ensures channels == old(channels) + [ch] && pending == old(pending)[id := ch] && id !in old(pending)
      ensures st.reader == old(st).reader && st.input == old(st).input
      ensures At(st, id - 1, if writes then Waiting else Leaving(WriteFailed)) && st.calls[id - 1].id == id
    {
      hide Reaches, Apply;
      ghost var s0 := st;
      id, ch := Enter();
      Advance(s0, Write(id - 1, writes), id - 1, if writes then Waiting else Leaving(WriteFailed));
    }

    /** The select and the deferred delete; with neither case ready it blocks. */
    method Select(ghost s0: State, id: nat, ch: Channel, cancelled: bool) returns (ret: Option<Return>)
      requires Valid() && Reaches(s0, st) && 1 <= id <= |channels| && ch == channels[id - 1]
      requires At(st, id - 1, Waiting) && st.calls[id - 1].id == id
      modifies this, ch
      ensures Valid() && Reaches(s0, st)
      ensures ret.None? ==> !cancelled && st == old(st) && st.calls[id - 1].chan == None
      ensures ret.Some? ==> pending == old(pending) - {id} && ret.value != WriteFailed
      ensures ret == Some(Cancelled) ==> cancelled
      ensures ret.Some? && ret.value.Answered? ==> old(ch.slot) == Some(ret.value.resp)
    {
      hide Reaches, Apply;
      if {
        case ch.slot.Some? =>
          var resp := Take(s0, id, ch);
          Finish(s0, id);
          ret := Some(Answered(resp));
        case cancelled =>
          Advance(s0, Cancel(id - 1), id - 1, Leaving(Cancelled));
          Finish(s0, id);
          ret := Some(Cancelled);
        case ch.slot.None? && !cancelled =>
          ret := None;
      }
    }
  }

  lemma InsertDelete(m: map<nat, Channel>, id: nat, ch: Channel)
    requires id !in m
    ensures m[id := ch] - {id} == m
  {
  }

  /** The client has sent these lines too. */
  ghost function Fill(s: State, lines: seq<Line>): State
    decreases |lines|
  {
    if lines == [] then s else Fill(Apply(s, Client(lines[0])), lines[1..])
  }

  lemma {:induction false} FillReaches(s: State, lines: seq<Line>)
    ensures Reaches(s, Fill(s, lines))
    ensures Fill(s, lines) == s.(input := s.input + lines, polite := Fill(s, lines).polite)
    decreases |lines|
  {
    if lines == [] {
      assert Run(s, []) && After(s, []) == s;
      assert s.input + lines == s.input;
    } else {
      var t := Apply(s, Client(lines[0]));
      FillReaches(t, lines[1..]);
      OneStep(s, Client(lines[0]));
      ReachesOn(s, t, Fill(t, lines[1..]));
      assert (s.input + [lines[0]]) + lines[1..] == s.input + lines;
    }
  }

  lemma ScanStep(s: State)
    requires CanStep(s, Scan) && s.input[0].AnswerLine?
    ensures var t := Apply(s, Scan);
      && Reaches(s, t) && SameStages(s, t) && t.input == s.input[1..] && t.calls == s.calls
      && (t.reader == Scanning || t.reader.Sending?)
  {
    OneStep(s, Scan);
  }

  lemma SendStep(s: State, t: State)
    requires Reaches(s, t) && SameStages(s, t) && CanStep(t, Step.Send)
    ensures var u := Apply(t, Step.Send);
      Reaches(s, u) && SameStages(s, u) && u.reader == Scanning && u.input == t.input
  {
    OneStep(t, Step.Send);
    ReachesOn(s, t, Apply(t, Step.Send));
  }

  /** Some run leads from s to t. */
  ghost predicate Reaches(s: State, t: State) {
    exists run: seq<Step> :: Run(s, run) && After(s, run) == t
  }

  lemma OneStep(s: State, st: Step)
    requires CanStep(s, st)
    ensures Reaches(s, Apply(s, st))
  {
    OneMore(s, st, []);
  }

  lemma ReachesOn(s: State, t: State, u: State)
    requires Reaches(s, t) && Reaches(t, u)
    ensures Reaches(s, u)
  {
    var a :| Run(s, a) && After(s, a) == t;
    var b :| Run(t, b) && After(t, b) == u;
    RunOn(s, a, b);
  }

  lemma ReachesKeepsInv(s: State, t: State)
    requires Inv(s) && Reaches(s, t)
    ensures Inv(t)
    ensures forall k :: 0 <= k < |t.calls| && t.calls[k].chan.Some? ==> t.calls[k].chan.value.id == t.calls[k].id
  {
    var run :| Run(s, run) && After(s, run) == t;
    RunKeepsInv(s, run);
  }

  lemma {:induction false} RunOn(s: State, a: seq<Step>, b: seq<Step>)
    requires Run(s, a) && Run(After(s, a), b)
    ensures Run(s, a + b) && After(s, a + b) == After(After(s, a), b)
    decreases |a|
  {
    if a == [] {
      assert a + b == b;
    } else {
      RunOn(Apply(s, a[0]), a[1..], b);
      OneMore(s, a[0], a[1..] + b);
      assert [a[0]] + (a[1..] + b) == a + b;
    }
  }

  /** The calls are where they were; only their channels may differ. */
  predicate SameStages(s: State, t: State) {
    && t.nextID == s.nextID && t.pending == s.pending && |t.calls| == |s.calls|
    && forall k :: 0 <= k < |s.calls| ==> t.calls[k] == s.calls[k].(chan := t.calls[k].chan)
  }
}
