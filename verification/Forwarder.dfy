/** The CLI's RPC forwarder and the JSON mode around it as one transition system
    (kafig-cli/rpc_forward.go, json.go): any number of concurrent Forward calls,
    the reader goroutine that delivers answers and hands over commands on
    unbuffered channels, and the main loop. */
module Forwarder {
  import opened Rpc

  // ---------------------------------------------------------------- state

  datatype Response = Response(id: nat, body: string)

  /** A line of standard input: an rpc_response, a command, or one that is neither. */
  datatype Line = AnswerLine(resp: Response) | CommandLine | MalformedLine

  /** What a Forward call returns. */
  datatype Return = Answered(resp: Response) | Cancelled | WriteFailed

  /** Where a Forward call is: it drew its id; its channel is in the map; its
      request is written; it is about to run its deferred delete; it returned. */
  datatype Stage = Started | Registered | Waiting | Leaving(ret: Return) | Gone(ret: Return)

  /** A Forward call and its own channel, of capacity one. */
  datatype Forward = Forward(id: nat, stage: Stage, chan: Option<Response>)

  /** Where the reader goroutine is: scanning; in `ch <- resp` of Deliver for the
      channel of call k; in `commands <- cmd`; in `parseErrors <- err`. */
  datatype Reader = Scanning | Sending(k: nat, resp: Response) | HoldingCommand | HoldingError

  datatype State = State(
    nextID: nat,
    pending: map<nat, nat>,         // id to the call whose channel it is
    calls: seq<Forward>,
    reader: Reader,
    input: seq<Line>,
    executing: bool,                // the main loop is in sess.exec
    // history: ids looked up by Deliver, how often an answer to an id entered a
    // channel, and whether the client has held back other input until results
    // were printed
    handled: seq<nat>,
    placed: multiset<nat>,
    polite: bool)

  function Init(): State {
    State(0, map[], [], Scanning, [], false, [], multiset{}, true)
  }

  datatype Step =
    | Client(line: Line)
    | Scan
    | Send
    | TakeCommand
    | TakeError
    | Finish
    | Start
    | Register(k: nat)
    | Write(k: nat, ok: bool)
    | Receive(k: nat)
    | Cancel(k: nat)
    | Unregister(k: nat)

  // ---------------------------------------------------------------- steps

  predicate At(s: State, k: nat, stage: Stage) {
    k < |s.calls| && s.calls[k].stage == stage
  }

  predicate CanStep(s: State, st: Step)
  {
    match st
    case Client(_) => true
    case Scan => s.reader == Scanning && s.input != []
    case Send => s.reader.Sending? && s.reader.k < |s.calls| && s.calls[s.reader.k].chan.None?
    case TakeCommand => s.reader == HoldingCommand && !s.executing
    case TakeError => s.reader == HoldingError && !s.executing
    case Finish => s.executing
    case Start => true  // a handler's goroutine may outlive the execution that launched it
    case Register(k) => At(s, k, Started)
    case Write(k, _) => At(s, k, Registered)
    case Receive(k) => At(s, k, Waiting) && s.calls[k].chan.Some?
    case Cancel(k) => At(s, k, Waiting)
    case Unregister(k) => k < |s.calls| && s.calls[k].stage.Leaving?
  }

  function Move(s: State, k: nat, stage: Stage): State
    requires k < |s.calls|
  {
    s.(calls := s.calls[k := s.calls[k].(stage := stage)])
  }

  /** Deliver up to its channel send: the lookup under the mutex. */
  function Lookup(s: State, r: Response): State {
    var t := s.(handled := s.handled + [r.id]);
    if r.id in s.pending then t.(reader := Sending(s.pending[r.id], r)) else t
  }

  /** A polite client sends a line that is not an answer only when nothing is executing
      and no earlier such line is on its way. */
  predicate Polite(s: State, line: Line) {
    line.AnswerLine? || (!s.executing && s.reader != HoldingCommand && s.reader != HoldingError && OnlyAnswers(s.input))
  }

  predicate OnlyAnswers(input: seq<Line>) {
    forall l :: l in input ==> l.AnswerLine?
  }

  function Apply(s: State, st: Step): State
    requires CanStep(s, st)
  {
    match st
    case Client(line) => s.(input := s.input + [line], polite := s.polite && Polite(s, line))
    case Scan =>
      var t := s.(input := s.input[1..]);
      (match s.input[0]
       case AnswerLine(r) => Lookup(t, r)
       case CommandLine => t.(reader := HoldingCommand)
       case MalformedLine => t.(reader := HoldingError))
    case Send =>
      s.(calls := s.calls[s.reader.k := s.calls[s.reader.k].(chan := Some(s.reader.resp))],
         placed := s.placed + multiset{s.reader.resp.id}, reader := Scanning)
    case TakeCommand => s.(reader := Scanning, executing := true)
    case TakeError => s.(reader := Scanning)
    case Finish => s.(executing := false)
    case Start => s.(nextID := s.nextID + 1, calls := s.calls + [Forward(s.nextID + 1, Started, None)])
    case Register(k) => Move(s.(pending := s.pending[s.calls[k].id := k]), k, Registered)
    case Write(k, ok) => Move(s, k, if ok then Waiting else Leaving(WriteFailed))
    case Receive(k) => Move(s.(calls := s.calls[k := s.calls[k].(chan := None)]), k, Leaving(Answered(s.calls[k].chan.value)))
    case Cancel(k) => Move(s, k, Leaving(Cancelled))
    case Unregister(k) => Move(s.(pending := s.pending - {s.calls[k].id}), k, Gone(s.calls[k].stage.ret))
  }

  // ---------------------------------------------------------------- invariant

  predicate InMap(stage: Stage) {
    stage.Registered? || stage.Waiting? || stage.Leaving?
  }

  /** Ids are those of the calls, and the map holds exactly the live ones. */
  ghost predicate Keyed(s: State) {
    && |s.calls| == s.nextID
    && (forall k :: 0 <= k < |s.calls| ==> s.calls[k].id == k + 1)
    && (forall id :: id in s.pending ==> 1 <= id <= |s.calls| && s.pending[id] == id - 1)
    && (forall k :: 0 <= k < |s.calls| ==> (k + 1 in s.pending <==> InMap(s.calls[k].stage)))
  }

  /** Whatever a call holds, is being sent or was returned answers its own request. */
  ghost predicate Routed(s: State) {
    && (forall k :: 0 <= k < |s.calls| && s.calls[k].chan.Some? ==> s.calls[k].chan.value.id == s.calls[k].id)
    && (forall k :: 0 <= k < |s.calls| ==>
          match s.calls[k].stage
          case Leaving(Answered(r)) => r.id == s.calls[k].id
          case Gone(Answered(r)) => r.id == s.calls[k].id
          case _ => true)
    && (s.reader.Sending? ==> s.reader.k < |s.calls| && s.reader.resp.id == s.calls[s.reader.k].id)
  }

  /** The call took an answer out of its channel. */
  predicate Took(stage: Stage) {
    match stage
    case Leaving(ret) => ret.Answered?
    case Gone(ret) => ret.Answered?
    case _ => false
  }

  /** Answers that entered the channel of a call: the one in it, and the one taken. */
  function Arrived(f: Forward): nat {
    (if f.chan.Some? then 1 else 0) + (if Took(f.stage) then 1 else 0)
  }

  /** An answer that entered a channel stays there until the call takes it. */
  ghost predicate Kept(s: State) {
    && (forall k :: 0 <= k < |s.calls| ==> s.placed[s.calls[k].id] == Arrived(s.calls[k]))
    && (forall k :: 0 <= k < |s.calls| && s.calls[k].stage.Started? ==> s.calls[k].chan.None?)
    && (forall id :: id in s.placed ==> 1 <= id <= |s.calls|)
    && (s.reader.Sending? ==> s.reader.k < |s.calls| && !s.calls[s.reader.k].stage.Started?)
  }

  predicate Distinct(ids: seq<nat>) {
    forall i, j :: 0 <= i < j < |ids| ==> ids[i] != ids[j]
  }

  /** The id being sent was looked up last; if it was placed, it was looked up before. */
  ghost predicate Unblocked(s: State) {
    && (forall id :: id in s.placed ==> id in s.handled)
    && (s.reader.Sending? ==>
          && s.handled != [] && s.handled[|s.handled| - 1] == s.reader.resp.id
          && (s.reader.resp.id in s.placed ==> s.reader.resp.id in s.handled[..|s.handled| - 1]))
  }

  /** With a polite client the reader holds no command while one executes. */
  ghost predicate Courteous(s: State) {
    s.polite && s.executing ==> OnlyAnswers(s.input) && s.reader != HoldingCommand && s.reader != HoldingError
  }

  predicate AtMostOneOther(input: seq<Line>) {
    forall i, j :: 0 <= i < j < |input| ==> input[i].AnswerLine? || input[j].AnswerLine?
  }

  /** At most one line other than an answer is on its way. */
  ghost predicate OneAtATime(s: State) {
    s.polite ==>
      && AtMostOneOther(s.input)
      && (s.reader == HoldingCommand || s.reader == HoldingError ==> OnlyAnswers(s.input))
  }

  ghost predicate Inv(s: State) {
    Keyed(s) && Routed(s) && Kept(s) && Unblocked(s) && Courteous(s) && OneAtATime(s)
  }

  predicate OfCall(st: Step) {
    st.Register? || st.Write? || st.Receive? || st.Cancel? || st.Unregister?
  }

  lemma CallStepKeepsKeyed(s: State, st: Step)
    requires Keyed(s) && CanStep(s, st) && OfCall(st)
    ensures Keyed(Apply(s, st))
  {
    match st
    case Register(k) =>
    case Write(k, ok) =>
    case Receive(k) =>
    case Cancel(k) =>
    case Unregister(k) => assert s.calls[k].id == k + 1;
  }

  lemma CallStepKeepsRouted(s: State, st: Step)
    requires Keyed(s) && Routed(s) && CanStep(s, st) && OfCall(st)
    ensures Routed(Apply(s, st))
  {
  }

  lemma CallStepKeepsKept(s: State, st: Step)
    requires Keyed(s) && Kept(s) && CanStep(s, st) && OfCall(st)
    ensures Kept(Apply(s, st))
  {
    var t := Apply(s, st);
    forall k | 0 <= k < |t.calls| ensures t.placed[t.calls[k].id] == Arrived(t.calls[k]) {
      assert s.placed[s.calls[k].id] == Arrived(s.calls[k]);
    }
  }

  lemma CallStepFrame(s: State, st: Step)
    requires CanStep(s, st) && OfCall(st)
    ensures var t := Apply(s, st);
      t == s.(pending := t.pending, calls := t.calls) && |t.calls| == |s.calls|
  {
  }

  /** What one scanned line does to the reader: a channel it will send to is in the map. */
  lemma ScanFrame(s: State)
    requires CanStep(s, Scan)
    ensures var t := Apply(s, Scan);
      && t == s.(input := t.input, reader := t.reader, handled := t.handled)
      && (t.reader.Sending? ==> t.reader.resp.id in s.pending && t.reader.k == s.pending[t.reader.resp.id])
  {
  }

  lemma ReaderKeepsRouting(s: State, t: State)
    requires Keyed(s) && Routed(s) && Kept(s)
    requires t == s.(input := t.input, reader := t.reader, handled := t.handled)
    requires t.reader.Sending? ==> t.reader.resp.id in s.pending && t.reader.k == s.pending[t.reader.resp.id]
    ensures Keyed(t) && Routed(t) && Kept(t)
  {
    if t.reader.Sending? {
      assert s.calls[t.reader.k].id == t.reader.k + 1;
    }
  }

  lemma ScanKeepsUnblocked(s: State)
    requires Unblocked(s) && CanStep(s, Scan)
    ensures Unblocked(Apply(s, Scan))
  {
    var t := Apply(s, Scan);
    if s.input[0].AnswerLine? {
      var id := s.input[0].resp.id;
      assert t.handled == s.handled + [id];
      HandledMore(s.handled, id);
    }
  }

  lemma HandledMore(ids: seq<nat>, id: nat)
    ensures (ids + [id])[..|ids + [id]| - 1] == ids && (ids + [id])[|ids + [id]| - 1] == id
    ensures forall i :: i in ids ==> i in ids + [id]
  {
  }

  lemma ScanKeepsCourtesy(s: State)
    requires Courteous(s) && OneAtATime(s) && CanStep(s, Scan)
    ensures Courteous(Apply(s, Scan)) && OneAtATime(Apply(s, Scan))
  {
    var rest := s.input[1..];
    forall l | l in rest ensures l in s.input {
    }
    if s.polite {
      forall i, j | 0 <= i < j < |rest| ensures rest[i].AnswerLine? || rest[j].AnswerLine? {
        assert rest[i] == s.input[i + 1] && rest[j] == s.input[j + 1];
      }
      if !s.input[0].AnswerLine? {
        forall l | l in rest ensures l.AnswerLine? {
          var j :| 0 <= j < |rest| && rest[j] == l;
          assert s.input[j + 1] == l;
        }
      }
    }
  }

  lemma ClientKeepsInv(s: State, line: Line)
    requires Inv(s)
    ensures Inv(Apply(s, Client(line)))
  {
    var t := Apply(s, Client(line));
    assert forall l :: l in t.input <==> l in s.input || l == line;
    if t.polite {
      forall i, j | 0 <= i < j < |t.input| ensures t.input[i].AnswerLine? || t.input[j].AnswerLine? {
        assert t.input[i] == s.input[i] && t.input[i] in s.input;
      }
    }
  }

  lemma StartKeepsInv(s: State)
    requires Inv(s)
    ensures Inv(Apply(s, Start))
  {
    assert s.nextID + 1 !in s.placed;
  }

  lemma SendKeepsInv(s: State)
    requires Inv(s) && CanStep(s, Send)
    ensures Inv(Apply(s, Send))
  {
    var t, k := Apply(s, Send), s.reader.k;
    forall j | 0 <= j < |t.calls| ensures t.placed[t.calls[j].id] == Arrived(t.calls[j]) {
      assert s.placed[s.calls[j].id] == Arrived(s.calls[j]);
    }
    assert s.handled[|s.handled| - 1] == s.reader.resp.id;
  }

  lemma StepKeepsInv(s: State, st: Step)
    requires Inv(s) && CanStep(s, st)
    ensures Inv(Apply(s, st))
  {
    if OfCall(st) {
      CallStepKeepsKeyed(s, st);
      CallStepKeepsRouted(s, st);
      CallStepKeepsKept(s, st);
      CallStepFrame(s, st);
    } else if st.Start? {
      StartKeepsInv(s);
    } else if st.Send? {
      SendKeepsInv(s);
    } else if st.Client? {
      ClientKeepsInv(s, st.line);
    } else if st.Scan? {
      ScanFrame(s);
      ReaderKeepsRouting(s, Apply(s, st));
      ScanKeepsUnblocked(s);
      ScanKeepsCourtesy(s);
    }
  }

  // ---------------------------------------------------------------- runs

  ghost predicate Run(s: State, steps: seq<Step>)
    decreases |steps|
  {
    steps == [] || (CanStep(s, steps[0]) && Run(Apply(s, steps[0]), steps[1..]))
  }

  ghost function After(s: State, steps: seq<Step>): State
    requires Run(s, steps)
    decreases |steps|
  {
    if steps == [] then s else After(Apply(s, steps[0]), steps[1..])
  }

  lemma {:induction false} RunKeepsInv(s: State, steps: seq<Step>)
    requires Inv(s) && Run(s, steps)
    ensures Inv(After(s, steps))
    decreases |steps|
  {
    if steps != [] {
      StepKeepsInv(s, steps[0]);
      RunKeepsInv(Apply(s, steps[0]), steps[1..]);
    }
  }

  // ---------------------------------------------------------------- theorems

  /** Routing: over every run, a Forward only ever returns the response with the
      id it drew; ids are distinct; each key of the map is that of exactly one
      live Forward and leads to its channel; and the map is empty once all of
      them have returned. */
  lemma ForwardReturnsItsOwnAnswer(steps: seq<Step>, i: nat, j: nat)
    requires Run(Init(), steps) && i < |After(Init(), steps).calls| && j < |After(Init(), steps).calls|
    ensures var s := After(Init(), steps);
      && (s.calls[i].stage.Gone? && s.calls[i].stage.ret.Answered? ==> s.calls[i].stage.ret.resp.id == s.calls[i].id)
      && (s.calls[i].id == s.calls[j].id <==> i == j)
      && (s.calls[i].id in s.pending <==> InMap(s.calls[i].stage))
      && (s.calls[i].id in s.pending ==> s.pending[s.calls[i].id] == i)
  {
    RunKeepsInv(Init(), steps);
  }

  lemma MapEmptyWhenAllReturned(steps: seq<Step>)
    requires Run(Init(), steps)
    requires forall k :: 0 <= k < |After(Init(), steps).calls| ==> After(Init(), steps).calls[k].stage.Gone?
    ensures After(Init(), steps).pending == map[]
  {
    RunKeepsInv(Init(), steps);
    var s := After(Init(), steps);
    forall id: nat ensures id !in s.pending {
      if 1 <= id <= |s.calls| {
        assert !InMap(s.calls[id - 1].stage);
      }
    }
  }

  /** Exactly when Deliver blocks: the answers already placed for that call
      outnumber those it took. If that call still waits, it can take one. */
  lemma DeliverBlocksIffUnread(steps: seq<Step>)
    requires Run(Init(), steps) && After(Init(), steps).reader.Sending?
    ensures var s := After(Init(), steps);
      && s.reader.k < |s.calls| && s.calls[s.reader.k].id == s.reader.resp.id
      && (CanStep(s, Send) <==> s.placed[s.reader.resp.id] == if Took(s.calls[s.reader.k].stage) then 1 else 0)
      && (!CanStep(s, Send) && At(s, s.reader.k, Waiting) ==> CanStep(s, Receive(s.reader.k)))
  {
    RunKeepsInv(Init(), steps);
    SendFacts(After(Init(), steps));
  }

  lemma SendFacts(s: State)
    requires Inv(s) && s.reader.Sending?
    ensures s.reader.k < |s.calls| && s.calls[s.reader.k].id == s.reader.resp.id
    ensures s.placed[s.reader.resp.id] == Arrived(s.calls[s.reader.k])
  {
  }

  /** Deliver never blocks if no id is answered twice. */
  lemma DeliverNeverBlocks(steps: seq<Step>)
    requires Run(Init(), steps) && After(Init(), steps).reader.Sending? && Distinct(After(Init(), steps).handled)
    ensures CanStep(After(Init(), steps), Send)
  {
    RunKeepsInv(Init(), steps);
    SendGoesAhead(After(Init(), steps));
  }

  lemma SendGoesAhead(s: State)
    requires Inv(s) && s.reader.Sending? && Distinct(s.handled)
    ensures CanStep(s, Send)
  {
    SendFacts(s);
    LastIsNew(s.handled);
  }

  lemma LastIsNew(ids: seq<nat>)
    requires ids != [] && Distinct(ids)
    ensures ids[|ids| - 1] !in ids[..|ids| - 1]
  {
  }

  /** A step of the reader goroutine or of the main loop's select. */
  predicate ReaderStep(st: Step) {
    st in {Scan, Send, TakeCommand, TakeError}
  }

  /** Progress of the JSON mode: if no id is answered twice and the client holds
      other input back until the current result is printed, then whenever input is
      available or the reader is busy, the reader or the main loop can move. */
  lemma ReaderIsNeverStuck(steps: seq<Step>)
    requires Run(Init(), steps)
    requires var s := After(Init(), steps); s.polite && Distinct(s.handled) && (s.input != [] || s.reader != Scanning)
    ensures var s := After(Init(), steps); exists st :: ReaderStep(st) && CanStep(s, st)
  {
    RunKeepsInv(Init(), steps);
    ReaderMoves(After(Init(), steps));
  }

  lemma ReaderMoves(s: State)
    requires Inv(s) && s.polite && Distinct(s.handled) && (s.input != [] || s.reader != Scanning)
    ensures exists st :: ReaderStep(st) && CanStep(s, st)
  {
    match s.reader
    case Scanning => assert ReaderStep(Scan) && CanStep(s, Scan);
    case Sending(_, _) =>
      SendGoesAhead(s);
      assert ReaderStep(Send) && CanStep(s, Send);
    case HoldingCommand => assert ReaderStep(TakeCommand) && CanStep(s, TakeCommand);
    case HoldingError => assert ReaderStep(TakeError) && CanStep(s, TakeError);
  }

  /** Reader steps still to take before the input is consumed. */
  function ReaderWork(s: State): nat {
    2 * |s.input| + (if s.reader == Scanning then 0 else 1)
  }

  function ReaderSteps(steps: seq<Step>): nat {
    if steps == [] then 0 else (if ReaderStep(steps[0]) then 1 else 0) + ReaderSteps(steps[1..])
  }

  function AnswerIds(input: seq<Line>): seq<nat> {
    if input == [] then []
    else (if input[0].AnswerLine? then [input[0].resp.id] else []) + AnswerIds(input[1..])
  }

  /** The ids of all answers sent so far, looked up or still in the input. */
  function Answers(s: State): seq<nat> {
    s.handled + AnswerIds(s.input)
  }

  lemma StepConsumes(s: State, st: Step)
    requires CanStep(s, st) && !st.Client?
    ensures var t := Apply(s, st);
      && ReaderWork(t) + (if ReaderStep(st) then 1 else 0) <= ReaderWork(s)
      && Answers(t) == Answers(s) && t.polite == s.polite
  {
    if st.Scan? && s.input[0].AnswerLine? {
      var id, rest := s.input[0].resp.id, AnswerIds(s.input[1..]);
      assert s.handled + ([id] + rest) == (s.handled + [id]) + rest;
    } else if st.Scan? {
      assert [] + AnswerIds(s.input[1..]) == AnswerIds(s.input[1..]);
    }
  }

  lemma {:induction false} StepsConsume(s: State, more: seq<Step>)
    requires Run(s, more) && forall st :: st in more ==> !st.Client?
    ensures var t := After(s, more);
      && ReaderWork(t) + ReaderSteps(more) <= ReaderWork(s)
      && Answers(t) == Answers(s) && t.polite == s.polite
    decreases |more|
  {
    if more != [] {
      assert more[0] in more;
      StepConsumes(s, more[0]);
      StepsConsume(Apply(s, more[0]), more[1..]);
    }
  }

  /** All input is consumed: once such a client pauses, the reader and the main
      loop take boundedly many steps, however the Forward calls and the executions
      interleave with them, and when they can take no more, no input is left. */
  lemma InputIsConsumed(steps: seq<Step>, more: seq<Step>)
    requires Run(Init(), steps) && After(Init(), steps).polite && Distinct(Answers(After(Init(), steps)))
    requires Run(After(Init(), steps), more) && forall st :: st in more ==> !st.Client?
    ensures ReaderSteps(more) <= ReaderWork(After(Init(), steps))
    ensures var t := After(After(Init(), steps), more);
      (forall st :: ReaderStep(st) ==> !CanStep(t, st)) ==> t.input == [] && t.reader == Scanning
  {
    var s := After(Init(), steps);
    RunKeepsInv(Init(), steps);
    StepsConsume(s, more);
    RunKeepsInv(s, more);
    var t := After(s, more);
    DistinctPrefix(t.handled, AnswerIds(t.input));
    if t.input != [] || t.reader != Scanning {
      ReaderMoves(t);
    }
  }

  lemma DistinctPrefix(a: seq<nat>, b: seq<nat>)
    requires Distinct(a + b)
    ensures Distinct(a)
  {
    forall i, j | 0 <= i < j < |a| ensures a[i] != a[j] {
      assert (a + b)[i] == a[i] && (a + b)[j] == a[j];
    }
  }

  // ---------------------------------------------------------------- exactly when an answer gets through

  predicate IsAnswerTo(line: Line, id: nat) {
    line.AnswerLine? && line.resp.id == id
  }

  predicate Holding(r: Reader) {
    r == HoldingCommand || r == HoldingError
  }

  /** A line that is not an answer is held by the reader, or is in the input before
      any answer to call k, which is not on its way into the channel either. */
  ghost predicate Behind(s: State, k: nat) {
    || Holding(s.reader)
    || (!(s.reader.Sending? && s.reader.k == k) &&
        exists i :: 0 <= i < |s.input| && !s.input[i].AnswerLine? && forall j :: 0 <= j < i ==> !IsAnswerTo(s.input[j], k + 1))
  }

  /** Call k waits while a command executes, and has no answer. */
  predicate Waits(s: State, k: nat) {
    s.executing && At(s, k, Waiting) && s.calls[k].chan.None?
  }

  /** The execution is not over and call k is not cancelled. */
  predicate Patient(steps: seq<Step>, k: nat) {
    forall st :: st in steps ==> st != Finish && st != Cancel(k)
  }

  lemma ScanKeepsBehind(s: State, k: nat)
    requires Keyed(s) && Waits(s, k) && Behind(s, k) && CanStep(s, Scan)
    ensures Behind(Apply(s, Scan), k)
  {
    var t := Apply(s, Scan);
    var i :| 0 <= i < |s.input| && !s.input[i].AnswerLine? && forall j :: 0 <= j < i ==> !IsAnswerTo(s.input[j], k + 1);
    if i > 0 && s.input[0].AnswerLine? {
      assert !IsAnswerTo(s.input[0], k + 1);
      assert t.input[i - 1] == s.input[i];
      forall j | 0 <= j < i - 1 ensures !IsAnswerTo(t.input[j], k + 1) {
        assert t.input[j] == s.input[j + 1];
      }
    }
  }

  lemma StepKeepsBehind(s: State, k: nat, st: Step)
    requires Inv(s) && Waits(s, k) && Behind(s, k) && CanStep(s, st) && st != Finish && st != Cancel(k)
    ensures Waits(Apply(s, st), k) && Behind(Apply(s, st), k)
  {
    if st.Scan? {
      ScanKeepsBehind(s, k);
      ScanFrame(s);
    } else if st.Client? {
      ClientKeepsBehind(s, k, st.line);
    } else if OfCall(st) {
      CallStepFrame(s, st);
    }
  }

  lemma ClientKeepsBehind(s: State, k: nat, line: Line)
    requires Behind(s, k)
    ensures Behind(Apply(s, Client(line)), k)
  {
    var t := Apply(s, Client(line));
    if !Holding(s.reader) {
      var i :| 0 <= i < |s.input| && !s.input[i].AnswerLine? && forall j :: 0 <= j < i ==> !IsAnswerTo(s.input[j], k + 1);
      assert t.input[i] == s.input[i];
      forall j | 0 <= j < i ensures !IsAnswerTo(t.input[j], k + 1) {
        assert t.input[j] == s.input[j];
      }
    }
  }

  /** An answer that is behind another line never arrives while the execution lasts
      and the call is not cancelled, whatever anyone does. */
  lemma {:induction false} BehindForEver(s: State, k: nat, more: seq<Step>)
    requires Inv(s) && Waits(s, k) && Behind(s, k) && Run(s, more) && Patient(more, k)
    ensures Waits(After(s, more), k) && Behind(After(s, more), k)
    decreases |more|
  {
    if more != [] {
      assert more[0] in more;
      StepKeepsBehind(s, k, more[0]);
      StepKeepsInv(s, more[0]);
      assert forall st :: st in more[1..] ==> st in more;
      BehindForEver(Apply(s, more[0]), k, more[1..]);
    }
  }

  /** Some patient continuation puts an answer into the channel of call k. */
  ghost predicate Arrives(s: State, k: nat) {
    exists more: seq<Step> ::
      Run(s, more) && Patient(more, k) && k < |After(s, more).calls| && After(s, more).calls[k].chan.Some?
  }

  lemma ArrivesEarlier(s: State, k: nat, st: Step)
    requires CanStep(s, st) && st != Finish && st != Cancel(k) && Arrives(Apply(s, st), k)
    ensures Arrives(s, k)
  {
    var rest: seq<Step> :|
      Run(Apply(s, st), rest) && Patient(rest, k) &&
      k < |After(Apply(s, st), rest).calls| && After(Apply(s, st), rest).calls[k].chan.Some?;
    OneMore(s, st, rest);
    assert forall x :: x in [st] + rest ==> x == st || x in rest;
  }

  lemma ArrivesNow(s: State, k: nat)
    requires k < |s.calls| && s.calls[k].chan.Some?
    ensures Arrives(s, k)
  {
    assert Run(s, []) && After(s, []) == s && Patient([], k);
  }

  /** An answer to call k is in the input or about to be sent. */
  ghost predicate OnItsWay(s: State, k: nat) {
    (s.reader.Sending? && s.reader.k == k) || exists i :: 0 <= i < |s.input| && IsAnswerTo(s.input[i], k + 1)
  }

  lemma SentArrives(s: State, k: nat)
    requires Waits(s, k) && s.reader.Sending? && s.reader.k == k
    ensures Arrives(s, k)
  {
    ArrivesNow(Apply(s, Send), k);
    ArrivesEarlier(s, k, Send);
  }

  lemma SendClearsTheWay(s: State, k: nat)
    requires Waits(s, k) && CanStep(s, Send) && s.reader.k != k && !Behind(s, k) && OnItsWay(s, k)
    ensures Waits(Apply(s, Send), k) && !Behind(Apply(s, Send), k) && OnItsWay(Apply(s, Send), k)
  {
  }

  /** The next line is an answer; if it is not to k, the way stays clear behind it. */
  lemma ScanClearsTheWay(s: State, k: nat)
    requires Keyed(s) && Waits(s, k) && s.reader == Scanning && !Behind(s, k) && OnItsWay(s, k)
    ensures CanStep(s, Scan) && Waits(Apply(s, Scan), k)
    ensures var t := Apply(s, Scan);
      (t.reader.Sending? && t.reader.k == k) || (!Behind(t, k) && OnItsWay(t, k))
  {
    var t := Apply(s, Scan);
    var m :| 0 <= m < |s.input| && IsAnswerTo(s.input[m], k + 1);
    assert s.input[0].AnswerLine?;
    if !IsAnswerTo(s.input[0], k + 1) {
      assert t.input[m - 1] == s.input[m];
      forall i | 0 <= i < |t.input| && !t.input[i].AnswerLine?
        ensures exists j :: 0 <= j < i && IsAnswerTo(t.input[j], k + 1)
      {
        assert s.input[i + 1] == t.input[i];
        var j :| 0 <= j < i + 1 && IsAnswerTo(s.input[j], k + 1);
        assert t.input[j - 1] == s.input[j];
      }
    }
  }

  lemma {:induction false} ClearWayArrives(s: State, k: nat)
    requires Inv(s) && Waits(s, k) && !Behind(s, k) && OnItsWay(s, k) && Distinct(Answers(s))
    ensures Arrives(s, k)
    decreases ReaderWork(s)
  {
    if s.reader.Sending? && s.reader.k == k {
      SentArrives(s, k);
    } else {
      var st := if s.reader.Sending? then Send else Scan;
      if s.reader.Sending? {
        DistinctPrefix(s.handled, AnswerIds(s.input));
        SendGoesAhead(s);
        SendClearsTheWay(s, k);
      } else {
        ScanClearsTheWay(s, k);
      }
      StepKeepsInv(s, st);
      StepConsumes(s, st);
      var t := Apply(s, st);
      if t.reader.Sending? && t.reader.k == k {
        SentArrives(t, k);
      } else {
        ClearWayArrives(t, k);
      }
      ArrivesEarlier(s, k, st);
    }
  }

  /** Exactly when an answer gets through: while a command executes, an answer that
      was sent to a waiting request reaches its Forward, by some continuation in which
      the execution is not over and the request not cancelled, if and only if no
      other kind of line is ahead of it (no id being answered twice). */
  lemma AnswerArrivesIff(steps: seq<Step>, k: nat)
    requires Run(Init(), steps) && Waits(After(Init(), steps), k) && OnItsWay(After(Init(), steps), k)
    requires Distinct(Answers(After(Init(), steps)))
    ensures Arrives(After(Init(), steps), k) <==> !Behind(After(Init(), steps), k)
  {
    var s := After(Init(), steps);
    RunKeepsInv(Init(), steps);
    if Behind(s, k) {
      forall more: seq<Step> | Run(s, more) && Patient(more, k)
        ensures !(k < |After(s, more).calls| && After(s, more).calls[k].chan.Some?)
      {
        BehindForEver(s, k, more);
      }
    } else {
      ClearWayArrives(s, k);
    }
  }

  /** The client's side of it: sending any other line before the answer to a waiting
      request keeps that answer, and all later ones to it, from arriving. */
  lemma EarlyLineBlocksTheAnswer(steps: seq<Step>, line: Line, more: seq<Step>, k: nat)
    requires Run(Init(), steps) && Waits(After(Init(), steps), k) && !OnItsWay(After(Init(), steps), k)
    requires !line.AnswerLine?
    requires var s := Apply(After(Init(), steps), Client(line)); Run(s, more) && Patient(more, k)
    ensures var t := After(Apply(After(Init(), steps), Client(line)), more);
      At(t, k, Waiting) && t.calls[k].chan.None?
  {
    var s := After(Init(), steps);
    RunKeepsInv(Init(), steps);
    ClientKeepsInv(s, line);
    var t := Apply(s, Client(line));
    assert t.input[|s.input|] == line;
    forall j | 0 <= j < |s.input| ensures !IsAnswerTo(t.input[j], k + 1) {
      assert t.input[j] == s.input[j];
    }
    BehindForEver(t, k, more);
  }

  // ---------------------------------------------------------------- no answer is lost

  /** An answer to call k has been sent and not taken. */
  ghost predicate AnswerWaits(s: State, k: nat) {
    OnItsWay(s, k) || (k < |s.calls| && s.calls[k].chan.Some?)
  }

  predicate HasLeft(s: State, k: nat) {
    k < |s.calls| && (s.calls[k].stage.Leaving? || s.calls[k].stage.Gone?)
  }

  /** The call left with an answer. */
  predicate LeftAnswered(s: State, k: nat) {
    k < |s.calls| && Took(s.calls[k].stage)
  }

  lemma ScanKeepsAnswer(s: State, k: nat)
    requires Keyed(s) && At(s, k, Waiting) && OnItsWay(s, k) && CanStep(s, Scan)
    ensures OnItsWay(Apply(s, Scan), k)
  {
    var t := Apply(s, Scan);
    var m :| 0 <= m < |s.input| && IsAnswerTo(s.input[m], k + 1);
    if m > 0 {
      assert t.input[m - 1] == s.input[m];
    }
  }

  lemma CallStepKeepsAnswer(s: State, k: nat, st: Step)
    requires At(s, k, Waiting) && AnswerWaits(s, k) && CanStep(s, st) && OfCall(st)
    ensures var t := Apply(s, st);
      if st == Cancel(k) then HasLeft(t, k)
      else (At(t, k, Waiting) && AnswerWaits(t, k)) || LeftAnswered(t, k)
  {
    CallStepFrame(s, st);
    match st
    case Register(j) =>
    case Write(j, ok) =>
    case Receive(j) =>
    case Cancel(j) =>
    case Unregister(j) =>
  }

  /** Because registration precedes the write, a step either keeps the answer of a
      waiting call where it can be found, or is that call's own. */
  lemma StepKeepsAnswer(s: State, k: nat, st: Step)
    requires Inv(s) && At(s, k, Waiting) && AnswerWaits(s, k) && CanStep(s, st)
    ensures var t := Apply(s, st);
      if st == Cancel(k) then HasLeft(t, k)
      else (At(t, k, Waiting) && AnswerWaits(t, k)) || LeftAnswered(t, k)
  {
    var t := Apply(s, st);
    if OfCall(st) {
      CallStepKeepsAnswer(s, k, st);
    } else if s.calls[k].chan.Some? {
    } else if st.Scan? {
      ScanKeepsAnswer(s, k);
    } else if st.Client? {
      if !(s.reader.Sending? && s.reader.k == k) {
        var m :| 0 <= m < |s.input| && IsAnswerTo(s.input[m], k + 1);
        assert t.input[m] == s.input[m];
      }
    }
  }

  lemma {:induction false} LeftStays(s: State, k: nat, more: seq<Step>)
    requires HasLeft(s, k) && Run(s, more)
    ensures HasLeft(After(s, more), k) && (LeftAnswered(s, k) ==> LeftAnswered(After(s, more), k))
    decreases |more|
  {
    if more != [] {
      LeftStays(Apply(s, more[0]), k, more[1..]);
    }
  }

  /** No answer is lost: once an answer to a waiting request has been sent, then
      after any further run the request is still waiting with an answer in the
      input, with the reader or in its channel, or it has left; unless it was
      cancelled, it left with an answer. */
  lemma {:induction false} AnswerIsKept(s: State, k: nat, more: seq<Step>)
    requires Inv(s) && At(s, k, Waiting) && AnswerWaits(s, k) && Run(s, more)
    ensures var t := After(s, more);
      && ((At(t, k, Waiting) && AnswerWaits(t, k)) || HasLeft(t, k))
      && (Cancel(k) !in more && HasLeft(t, k) ==> LeftAnswered(t, k))
    decreases |more|
  {
    if more != [] {
      var t := Apply(s, more[0]);
      StepKeepsAnswer(s, k, more[0]);
      StepKeepsInv(s, more[0]);
      assert Cancel(k) !in more ==> more[0] != Cancel(k) && Cancel(k) !in more[1..];
      if At(t, k, Waiting) {
        AnswerIsKept(t, k, more[1..]);
      } else {
        LeftStays(t, k, more[1..]);
      }
    }
  }

  /** And it can be taken: with a client that holds other input back and answers no
      id twice, when the reader and the main loop can take no more steps, a request
      that was answered and still waits has the answer in its channel. */
  lemma AnswerCanBeTaken(steps: seq<Step>, k: nat, more: seq<Step>)
    requires Run(Init(), steps)
    requires var s := After(Init(), steps);
      s.polite && Distinct(Answers(s)) && At(s, k, Waiting) && AnswerWaits(s, k)
    requires Run(After(Init(), steps), more) && forall st :: st in more ==> !st.Client?
    requires forall st :: ReaderStep(st) ==> !CanStep(After(After(Init(), steps), more), st)
    ensures var t := After(After(Init(), steps), more);
      (At(t, k, Waiting) && CanStep(t, Receive(k)) && t.calls[k].chan.value.id == t.calls[k].id) || HasLeft(t, k)
  {
    var s := After(Init(), steps);
    RunKeepsInv(Init(), steps);
    InputIsConsumed(steps, more);
    AnswerIsKept(s, k, more);
    RunKeepsInv(s, more);
    hide Run, After, Answers, Distinct;
  }

  // ---------------------------------------------------------------- what the code does not guarantee

  /** The reader is in a channel send that nobody will ever receive from. */
  predicate Wedged(s: State) {
    s.reader.Sending? && s.reader.k < |s.calls| &&
    s.calls[s.reader.k].chan.Some? && (s.calls[s.reader.k].stage.Leaving? || s.calls[s.reader.k].stage.Gone?)
  }

  /** Once wedged, the reader stays so in every continuation. */
  lemma {:induction false} WedgedForEver(s: State, steps: seq<Step>)
    requires Wedged(s) && Run(s, steps)
    ensures Wedged(After(s, steps)) && After(s, steps).reader == s.reader
    decreases |steps|
  {
    if steps != [] { WedgedForEver(Apply(s, steps[0]), steps[1..]); }
  }

  lemma OneMore(s: State, st: Step, rest: seq<Step>)
    requires CanStep(s, st) && Run(Apply(s, st), rest)
    ensures Run(s, [st] + rest) && After(s, [st] + rest) == After(Apply(s, st), rest)
  {
    assert ([st] + rest)[1..] == rest;
  }

  /** Some continuation lets the blocked send go ahead. */
  ghost predicate Unblocks(s: State) {
    exists more: seq<Step> :: Run(s, more) && CanStep(After(s, more), Send) && After(s, more).reader == s.reader
  }

  lemma TakenUnblocks(s: State)
    requires s.reader.Sending? && At(s, s.reader.k, Waiting) && s.calls[s.reader.k].chan.Some?
    ensures Run(s, [Receive(s.reader.k)]) && CanStep(After(s, [Receive(s.reader.k)]), Send)
    ensures After(s, [Receive(s.reader.k)]).reader == s.reader
  {
    OneMore(s, Receive(s.reader.k), []);
    assert [Receive(s.reader.k)] + [] == [Receive(s.reader.k)];
  }

  /** Exactly when a blocked Deliver is blocked for ever: the Forward it answers has
      passed its select. */
  lemma BlockedForEverIff(steps: seq<Step>)
    requires Run(Init(), steps)
    requires var s := After(Init(), steps); s.reader.Sending? && !CanStep(s, Send)
    ensures Unblocks(After(Init(), steps)) <==> !Wedged(After(Init(), steps))
  {
    var s := After(Init(), steps);
    RunKeepsInv(Init(), steps);
    SendFacts(s);
    var k := s.reader.k;
    if Wedged(s) {
      forall more: seq<Step> | Run(s, more) ensures !CanStep(After(s, more), Send) {
        WedgedForEver(s, more);
      }
    } else if s.calls[k].stage.Waiting? {
      TakenUnblocks(s);
    } else {
      var t := Apply(s, Write(k, true));
      TakenUnblocks(t);
      OneMore(s, Write(k, true), [Receive(k)]);
    }
  }

  /** The state in which one command executes and its one request is written. */
  function Asked(polite: bool): State {
    State(1, map[1 := 0], [Forward(1, Waiting, None)], Scanning, [], true, [], multiset{}, polite)
  }

  /** The state in which one command executes. */
  function Busy(): State {
    Init().(executing := true)
  }

  lemma RequestWritten(steps: seq<Step>)
    requires Run(Asked(true), steps)
    ensures exists all: seq<Step> :: Run(Busy(), all) && After(Busy(), all) == After(Asked(true), steps)
  {
    var s1 := Apply(Busy(), Start);
    var s2 := Apply(s1, Register(0));
    assert Apply(s2, Write(0, true)) == Asked(true);
    OneMore(s2, Write(0, true), steps);
    var r2 := [Write(0, true)] + steps;
    OneMore(s1, Register(0), r2);
    var r1 := [Register(0)] + r2;
    OneMore(Busy(), Start, r1);
  }

  lemma OneRequest(steps: seq<Step>)
    requires Run(Asked(true), steps)
    ensures exists all: seq<Step> :: Run(Init(), all) && After(Init(), all) == After(Asked(true), steps)
  {
    RequestWritten(steps);
    var r3: seq<Step> :| Run(Busy(), r3) && After(Busy(), r3) == After(Asked(true), steps);
    var s1 := Apply(Init(), Client(CommandLine));
    var s2 := Apply(s1, Scan);
    assert Apply(s2, TakeCommand) == Busy();
    OneMore(s2, TakeCommand, r3);
    var r2 := [TakeCommand] + r3;
    OneMore(s1, Scan, r2);
    var r1 := [Scan] + r2;
    OneMore(Init(), Client(CommandLine), r1);
  }

  /** A second answer to the same id, with the Forward cancelled before it took
      the first, wedges the reader for ever. */
  lemma SecondAnswerCanWedgeTheReader(r: Response)
    requires r.id == 1
    ensures exists steps: seq<Step> :: Run(Init(), steps) && Wedged(After(Init(), steps))
  {
    var s0 := Asked(true);
    var s1 := Apply(s0, Client(AnswerLine(r)));
    var s2 := Apply(s1, Scan);
    var s3 := Apply(s2, Send);
    var s4 := Apply(s3, Client(AnswerLine(r)));
    var s5 := Apply(s4, Scan);
    var s6 := Apply(s5, Cancel(0));
    OneMore(s5, Cancel(0), []);
    var r5 := [Cancel(0)] + [];
    OneMore(s4, Scan, r5);
    var r4 := [Scan] + r5;
    OneMore(s3, Client(AnswerLine(r)), r4);
    var r3 := [Client(AnswerLine(r))] + r4;
    OneMore(s2, Send, r3);
    var r2 := [Send] + r3;
    OneMore(s1, Scan, r2);
    var r1 := [Scan] + r2;
    OneMore(s0, Client(AnswerLine(r)), r1);
    OneRequest([Client(AnswerLine(r))] + r1);
    assert Wedged(s6);
  }

  /** Nothing but the end of the execution or a cancellation can make a difference. */
  ghost predicate Deadlocked(s: State) {
    forall st: Step :: st.Scan? || st.Send? || st.TakeCommand? || st.TakeError? || (OfCall(st) && !st.Cancel?) ==> !CanStep(s, st)
  }

  ghost predicate AnsweredButDeadlocked(s: State, r: Response) {
    Deadlocked(s) && At(s, 0, Waiting) && s.calls[0].id == r.id && AnswerLine(r) in s.input
  }

  /** A client that sends its next command before answering the request of the
      current one deadlocks, although the answer is already on its way. */
  lemma EarlyCommandCanDeadlock(r: Response)
    requires r.id == 1
    ensures exists steps: seq<Step> :: Run(Init(), steps) && AnsweredButDeadlocked(After(Init(), steps), r)
  {
    var s0 := Asked(true);
    var s1 := Apply(s0, Client(CommandLine));
    var s2 := Apply(s1, Client(AnswerLine(r)));
    var s3 := Apply(s2, Scan);
    OneMore(s2, Scan, []);
    var r2 := [Scan] + [];
    OneMore(s1, Client(AnswerLine(r)), r2);
    var r1 := [Client(AnswerLine(r))] + r2;
    OneMore(s0, Client(CommandLine), r1);
    OneRequest([Client(CommandLine)] + r1);
    assert s3.input == [AnswerLine(r)];
    assert Deadlocked(s3);
  }
}
