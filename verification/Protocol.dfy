/** The host/guest RPC settlement protocol as a transition system: the guest's
    promise table and the host's queue, goroutines and results channel
    (kafig-go/instance.go, kafig-runtime/src/prelude.js, tracking.rs, rpc.rs).
    The guest is an adversary that performs any finite trace of actions inside
    each export; the scheduler picks any goroutine at any time. */
module Protocol {
  import opened Rpc
  import opened PromiseIds

  const CAPACITY: nat := 16

  // ---------------------------------------------------------------- state

  /** One entry of pendingRpcs: the resolve/reject pair of promise number `uid`,
      created in invocation `inv`. */
  datatype Entry = Entry(uid: nat, inv: nat)

  /** What a promise's own hostRpc call asked for. */
  datatype Request = Request(name: string, params: string)

  /** How far a settlement function got when its call did not come back normally. */
  datatype Reached = Untouched | Deleted | Settled

  /** The promise of draw `uid` was told `outcome` because call `via` was answered. */
  datatype Settlement = Settlement(uid: nat, inv: nat, via: Call, outcome: Outcome)

  /** What one run of serviceRPCLoop owns: its goroutines (still in the handler,
      or waiting to send), its channel and its cancellable context. `dropped`
      are results discarded by the goroutine, `fed` those settled in the guest,
      `lost` those received but not settled. */
  datatype Loop = Loop(
    working: seq<Call>, ready: seq<Result>, chan: seq<Result>,
    dropped: seq<Call>, fed: seq<Call>, lost: seq<Call>,
    inflight: int, cancelled: bool)

  datatype State = State(
    router: Router,
    // Guest. `drawn` counts makeRpcPromise calls; `open` are the promises whose
    // makeRpcPromise has not reached hostRpc yet, with their method argument;
    // `sent` are those that have, with their requests.
    drawn: nat, table: map<nat, Entry>, used: bool, open: map<nat, string>,
    sent: map<nat, Request>, settled: seq<Settlement>, draining: bool,
    // Host.
    pending: seq<Call>, error: Option<string>, result: Option<string>,
    looping: bool, cur: Loop, past: seq<Loop>,
    // History: the invocation number, `drawn` when it began, the calls queued in
    // it, whether an error cut its service loop short, whether an id was ever
    // drawn while another call with that id was outstanding, whether the last
    // __reset was interrupted, whether the table is known to hold no sent entries
    // of earlier invocations, and the promises whose entries scripts took out.
    inv: nat, base: nat, queued: seq<Call>, torn: bool, clash: bool, leaked: bool, cleaned: bool,
    removed: set<nat>)

  /** What the guest may do inside an export. Draw is makeRpcPromise up to the
      table insertion, Send its hostRpc call; a Draw never followed by its Send
      is a serialisation that threw. ScriptSettles is a script's own call of
      __resolve_rpc or __reject_rpc, ScriptResets one of __reset: all three are
      left on globalThis. */
  datatype Action =
    | Draw(name: string)
    | Send(uid: nat, params: string)
    | SetResult(json: string)
    | SetError(text: string)
    | ScriptSettles(id: nat)
    | ScriptResets

  type Trace = seq<Action>

  function EmptyLoop(): Loop {
    Loop([], [], [], [], [], [], 0, false)
  }

  function Init(router: Router): State {
    State(router, 0, map[], false, map[], map[], [], false, [], None, None,
          false, EmptyLoop(), [], 0, 0, [], false, false, false, true, {})
  }

  function Calls(rs: seq<Result>): seq<Call> {
    seq(|rs|, i requires 0 <= i < |rs| => rs[i].call)
  }

  /** The calls launched by a loop and not yet received from its channel. */
  ghost function InFlight(l: Loop): multiset<Call> {
    multiset(l.working) + multiset(Calls(l.ready)) + multiset(Calls(l.chan)) + multiset(l.dropped)
  }

  /** The calls outstanding on the host: queued, or launched by the running loop. */
  ghost function Live(s: State): multiset<Call> {
    multiset(s.pending) + (if s.looping then InFlight(s.cur) else multiset{})
  }

  // ---------------------------------------------------------------- guest actions

  /** Some outstanding call, or some promise about to be sent, has this id. */
  ghost predicate TakenIn(live: multiset<Call>, open: map<nat, string>, id: nat) {
    || (exists c :: c in live && c.id == id)
    || (exists u :: u in open && IdOf(u) == id)
  }

  ghost predicate Taken(s: State, id: nat) {
    TakenIn(Live(s), s.open, id)
  }

  ghost function DoDraw(s: State, name: string): State {
    var uid := s.drawn + 1;
    s.(drawn := uid,
       table := s.table[IdOf(uid) := Entry(uid, s.inv)],
       open := s.open[uid := name],
       clash := s.clash || Taken(s, IdOf(uid)))
  }

  ghost function SentCall(s: State, uid: nat, params: string): Call
    requires uid in s.open
  {
    Call(uid, IdOf(uid), s.open[uid], params, s.inv, s.draining)
  }

  ghost function DoSend(s: State, uid: nat, params: string): State
    requires uid in s.open
  {
    var c := SentCall(s, uid, params);
    s.(open := s.open - {uid}, sent := s.sent[uid := Request(s.open[uid], params)], used := true,
       pending := s.pending + [c], queued := s.queued + [c])
  }

  /** The script takes these entries out of the table; what it tells their promises
      is not among `settled`, which is the host's doing. */
  ghost function ScriptRemoves(s: State, ids: set<nat>): State {
    s.(table := s.table - ids, removed := s.removed + set k | k in s.table && k in ids :: s.table[k].uid)
  }

  ghost function Act(s: State, a: Action): State {
    match a
    case Draw(m) => DoDraw(s, m)
    case Send(u, p) => if u in s.open then DoSend(s, u, p) else s
    case SetResult(j) => s.(result := Some(j))
    case SetError(e) => s.(error := Some(e))
    case ScriptSettles(id) => ScriptRemoves(s, {id})
    case ScriptResets => ScriptRemoves(s, s.table.Keys)
  }

  ghost function Acts(s: State, tr: Trace): State
    decreases |tr|
  {
    if tr == [] then s else Acts(Act(s, tr[0]), tr[1..])
  }

  /** When the export returns, every makeRpcPromise call has returned or thrown. */
  ghost function Segment(s: State, tr: Trace): State {
    Acts(s, tr).(open := map[])
  }

  // ---------------------------------------------------------------- host operations

  /** resetState, at the start of every invocation, with a new history record. */
  ghost function ResetState(s: State): State {
    s.(pending := [], error := None, result := None,
       cur := EmptyLoop(), past := s.past + [s.cur.(cancelled := true)],
       inv := s.inv + 1, base := s.drawn, queued := [], torn := false, cleaned := false)
  }

  /** discard_stale_state. `resets` is whether the call of __reset comes back
      normally: its failure is ignored, and the table is then as it was. With
      `always`, __reset is called even when no call was sent since the last clean-up. */
  ghost function Discard(s: State, drain: Trace, resets: bool, always: bool): State {
    if s.used then
      var t := Segment(s.(used := false, draining := true), drain);
      t.(draining := false, table := if resets then map[] else t.table, leaked := !resets, cleaned := resets)
    else
      s.(table := if always && resets then map[] else s.table, cleaned := !s.leaked)
  }

  /** launchPendingRPCs, and the loop's exit when nothing is in flight. */
  ghost function Launch(s: State): State {
    var n := s.cur.inflight + |s.pending|;
    s.(cur := s.cur.(working := s.cur.working + s.pending, inflight := n, cancelled := s.cur.cancelled || n == 0),
       pending := [], looping := n > 0)
  }

  ghost function StopWithError(s: State): State {
    s.(looping := false, torn := true, cur := s.cur.(cancelled := true))
  }

  /** `<-results` and `inflight--`, the result's call being settled. */
  function SettledLoop(l: Loop): Loop
    requires l.chan != []
  {
    l.(chan := l.chan[1..], inflight := l.inflight - 1, fed := l.fed + [l.chan[0].call])
  }

  /** The same with the call's promise not being settled. */
  function LostLoop(l: Loop): Loop
    requires l.chan != []
  {
    l.(chan := l.chan[1..], inflight := l.inflight - 1, lost := l.lost + [l.chan[0].call])
  }

  /** What resolveRpc / rejectRpc tells the promise it finds, if any. */
  function Told(table: map<nat, Entry>, r: Result): seq<Settlement> {
    if r.call.id in table
    then [Settlement(table[r.call.id].uid, table[r.call.id].inv, r.call, OutcomeOf(r))]
    else []
  }

  /** A result is received, and resolveRpc / rejectRpc settles the promise it finds. */
  ghost function Fed(s: State): State
    requires s.cur.chan != []
  {
    s.(cur := SettledLoop(s.cur), table := s.table - {s.cur.chan[0].call.id},
       settled := s.settled + Told(s.table, s.cur.chan[0]))
  }

  /** A result is received and settles nothing; this table is left. */
  ghost function Lost(s: State, table: map<nat, Entry>): State
    requires s.cur.chan != []
  {
    s.(cur := LostLoop(s.cur), table := table, torn := true)
  }

  /** One iteration of the service loop whose resolve_rpc / reject_rpc returned. */
  ghost function FeedOk(s: State, tr: Trace): State
    requires s.cur.chan != []
  {
    var t := Segment(Fed(s), tr);
    if t.error.Some? then StopWithError(t) else Launch(t)
  }

  /** A received result whose settlement got this far. */
  ghost function Broken(s: State, reached: Reached): State
    requires s.cur.chan != []
  {
    match reached
    case Untouched => Lost(s, s.table)
    case Deleted => Lost(s, s.table - {s.cur.chan[0].call.id})
    case Settled => Fed(s)
  }

  /** One iteration that ends the loop: the payload could not be allocated, the
      settlement function threw (its report being part of `tr`), or it trapped. */
  ghost function FeedBroken(s: State, reached: Reached, tr: Trace): State
    requires s.cur.chan != []
  {
    StopWithError(Segment(Broken(s, reached), tr))
  }

  /** Eval, EvalCompiled or DispatchEvent up to the start of its service loop. */
  ghost function BeginWith(s: State, drain: Trace, resets: bool, body: Trace, async: bool, always: bool): State {
    var t := Segment(Discard(ResetState(s), drain, resets, always), body);
    if async && t.pending != [] then Launch(t) else t
  }

  // ---------------------------------------------------------------- goroutines

  function RemoveAt<T>(q: seq<T>, k: nat): seq<T>
    requires k < |q|
  {
    q[..k] + q[k + 1..]
  }

  function WorkLoop(router: Router, l: Loop, k: nat): Loop
    requires k < |l.working|
  {
    l.(working := RemoveAt(l.working, k), ready := l.ready + [RunHandler(router, l.working[k])])
  }

  function PostLoop(l: Loop, k: nat): Loop
    requires k < |l.ready|
  {
    l.(ready := RemoveAt(l.ready, k), chan := l.chan + [l.ready[k]])
  }

  function DropLoop(l: Loop, k: nat): Loop
    requires k < |l.ready|
  {
    l.(ready := RemoveAt(l.ready, k), dropped := l.dropped + [l.ready[k].call])
  }

  datatype Move = Work(k: nat) | Post(k: nat) | Drop(k: nat)

  predicate CanMove(l: Loop, m: Move) {
    match m
    case Work(k) => k < |l.working|
    case Post(k) => k < |l.ready| && |l.chan| < CAPACITY
    case Drop(k) => k < |l.ready| && l.cancelled
  }

  function MoveLoop(router: Router, l: Loop, m: Move): Loop
    requires CanMove(l, m)
  {
    match m
    case Work(k) => WorkLoop(router, l, k)
    case Post(k) => PostLoop(l, k)
    case Drop(k) => DropLoop(l, k)
  }

  // ---------------------------------------------------------------- steps and runs

  datatype Step =
    | Begin(drain: Trace, resets: bool, body: Trace, async: bool)
    | BeginFailed
    | Go(m: Move)
    | GoPast(i: nat, m: Move)
    | Cancel
    | Feed(tr: Trace)
    | FeedBreaks(reached: Reached, tr: Trace)

  predicate CanStep(s: State, st: Step) {
    match st
    case Begin(_, _, _, _) => !s.looping
    case BeginFailed => !s.looping
    case Go(m) => CanMove(s.cur, m)
    case GoPast(i, m) => i < |s.past| && CanMove(s.past[i], m)
    case Cancel => s.looping
    case Feed(_) => s.looping && s.cur.chan != []
    case FeedBreaks(_, _) => s.looping && s.cur.chan != []
  }

  ghost function Apply(s: State, st: Step, always: bool := false): State
    requires CanStep(s, st)
  {
    match st
    case Begin(drain, resets, body, async) => BeginWith(s, drain, resets, body, async, always)
    case BeginFailed => ResetState(s)
    case Go(m) => s.(cur := MoveLoop(s.router, s.cur, m))
    case GoPast(i, m) => s.(past := s.past[i := MoveLoop(s.router, s.past[i], m)])
    case Cancel => s.(cur := s.cur.(cancelled := true))
    case Feed(tr) => FeedOk(s, tr)
    case FeedBreaks(reached, tr) => FeedBroken(s, reached, tr)
  }

  ghost predicate Run(s: State, steps: seq<Step>, always: bool := false)
    decreases |steps|
  {
    steps == [] || (CanStep(s, steps[0]) && Run(Apply(s, steps[0], always), steps[1..], always))
  }

  ghost function After(s: State, steps: seq<Step>, always: bool := false): State
    requires Run(s, steps, always)
    decreases |steps|
  {
    if steps == [] then s else After(Apply(s, steps[0], always), steps[1..], always)
  }

  // ---------------------------------------------------------------- invariant

  predicate DistinctUids(cs: seq<Call>) {
    forall i, j :: 0 <= i < j < |cs| ==> cs[i].uid != cs[j].uid
  }

  /** Numbers: every id in sight is the masked number of a draw already made, and
      the calls of this invocation are exactly those drawn since it began. */
  ghost predicate Numbered(s: State) {
    && s.base <= s.drawn
    && (forall k :: k in s.table ==>
          var e := s.table[k];
          k == IdOf(e.uid) && e.uid <= s.drawn && e.inv <= s.inv && (e.inv == s.inv <==> s.base < e.uid))
    && (forall u :: u in s.open ==> s.base < u <= s.drawn && u !in s.sent)
    && (forall u :: u in s.sent ==> u <= s.drawn)
    && (forall c :: c in s.queued ==>
          c.uid in s.sent && s.sent[c.uid] == Request(c.name, c.params) &&
          s.base < c.uid && c.id == IdOf(c.uid) && c.inv == s.inv)
    && DistinctUids(s.queued)
  }

  /** Conservation: the calls queued in this invocation split, with multiplicity,
      into queued, launched, settled and lost ones, and `inflight` counts the
      launched ones that were not received. */
  ghost predicate Conserved(s: State) {
    && multiset(s.queued) ==
       multiset(s.pending) + InFlight(s.cur) + multiset(s.cur.fed) + multiset(s.cur.lost)
    && s.cur.inflight == |InFlight(s.cur)|
    && (s.cur.dropped != [] ==> s.cur.cancelled)
    && (s.cur.lost != [] ==> s.torn)
  }

  /** Every result in sight is that of the call's own handler. */
  ghost predicate Computed(s: State) {
    && (forall r :: r in s.cur.ready ==> r == RunHandler(s.router, r.call))
    && (forall r :: r in s.cur.chan ==> r == RunHandler(s.router, r.call))
  }

  /** The slot that an outstanding call would settle belongs to its invocation. */
  ghost predicate IsolatedFor(live: multiset<Call>, s: State) {
    && (forall c :: c in live && c.id in s.table ==> s.table[c.id].inv == s.inv)
    && (forall u :: u in s.open && IdOf(u) in s.table ==> s.table[IdOf(u)].inv == s.inv)
  }

  ghost predicate Isolated(s: State) {
    IsolatedFor(Live(s), s)
  }

  /** Entries whose call reached the host are flagged for clean-up, unless a
      clean-up was interrupted. */
  ghost predicate Flagged(s: State) {
    !s.draining && !s.leaked ==> forall k :: k in s.table && s.table[k].uid in s.sent ==> s.used
  }

  /** After a clean-up, entries whose call reached the host are of this invocation. */
  ghost predicate Clean(s: State) {
    s.cleaned ==> forall k :: k in s.table && s.table[k].uid in s.sent ==> s.table[k].inv == s.inv
  }

  /** Entries of this invocation whose call reached the host have it outstanding. */
  ghost predicate AgreedFor(live: multiset<Call>, s: State) {
    !s.torn ==> forall k :: k in s.table && s.table[k].uid in s.sent && s.table[k].inv == s.inv ==>
      exists c :: c in live && c.uid == s.table[k].uid
  }

  ghost predicate Agreed(s: State) {
    AgreedFor(Live(s), s)
  }

  /** Without an id clash, outstanding calls find their own entry or, if it was
      cleared with the stale state or taken out by a script, none. */
  ghost predicate OwnedFor(live: multiset<Call>, s: State) {
    !s.clash ==>
      && (forall c :: c in live && c.id in s.table ==> s.table[c.id].uid == c.uid)
      && (forall c :: c in live && !c.stale && c.uid !in s.removed ==> c.id in s.table)
      && (forall u :: u in s.open && IdOf(u) in s.table ==> s.table[IdOf(u)].uid == u)
      && (forall u :: u in s.open && u !in s.removed ==> IdOf(u) in s.table)
  }

  ghost predicate Owned(s: State) {
    OwnedFor(Live(s), s)
  }

  /** The settlements made so far. */
  ghost predicate Logged(s: State) {
    && (forall x :: x in s.settled ==>
          && x.outcome == Answer(s.router, x.via)
          && x.inv == x.via.inv
          && (s.clash || (x.uid == x.via.uid && x.uid in s.sent && s.sent[x.uid] == Request(x.via.name, x.via.params)))
          && x.uid <= s.drawn
          && x.uid !in s.open)
    && (forall i, j :: 0 <= i < j < |s.settled| ==> s.settled[i].uid != s.settled[j].uid)
    && (forall k, x :: k in s.table && x in s.settled ==> s.table[k].uid != x.uid)
    && (forall u :: u in s.removed ==> u <= s.drawn)
    && (forall k :: k in s.table ==> s.table[k].uid !in s.removed)
    && (forall x :: x in s.settled ==> x.uid !in s.removed)
  }

  /** While stale state is drained nothing else is outstanding. */
  ghost predicate DrainingFor(live: multiset<Call>, s: State) {
    s.draining ==> forall c :: c in live ==> c.stale
  }

  ghost predicate Draining(s: State) {
    DrainingFor(Live(s), s)
  }

  /** Without an id clash, every call fed back has settled its own promise, unless
      a script took that out of the table. */
  ghost predicate Served(s: State) {
    !s.clash ==> forall c :: c in s.cur.fed && !c.stale && c.uid !in s.removed ==>
      Settlement(c.uid, s.inv, c, Answer(s.router, c)) in s.settled
  }

  /** What holds even in the middle of an export. */
  ghost predicate Core(s: State) {
    && Numbered(s) && Conserved(s) && Computed(s) && Isolated(s)
    && Flagged(s) && Clean(s) && Agreed(s) && Owned(s) && Logged(s) && Draining(s) && Served(s)
  }

  /** What holds whenever no export is running. */
  ghost predicate Inv(s: State) {
    && Core(s)
    && s.open == map[] && !s.draining
    && (s.looping ==> s.pending == [] && s.cur.inflight > 0 && !s.torn)
    && (!s.looping && !s.torn ==> InFlight(s.cur) == multiset{})
  }
}
