/** Interrupt accounting: the guest's opcode counters and flags
    (kafig-runtime/src/tracking.rs, init.rs) and the limits that the CLI's
    callback enforces through them (kafig-cli/session.go). */
module Interrupts {
  import opened Bits
  import opened Rpc

  /** What one invocation of QuickJS's interrupt handler stands for. */
  const QUANTUM: nat := 10_000

  /** Counted opcodes between two questions to the host, as the guest is built. */
  const CHECK_INTERVAL: nat := 1

  /** The `static mut`s of tracking.rs; `start` is EXEC_START in microseconds. */
  datatype Counters = Counters(
    opcodes: nat, next: nat, cpu: nat, start: Option<nat>,
    draining: bool, initialized: bool, used: bool, force: bool)

  /** maxOpcodes and maxCPUTimeUs; 0 means no limit. */
  datatype Limits = Limits(opcodes: nat, cpu: nat)

  /** What the interrupt handler did: the count it left, whether it counted a
      quantum, asked the host, and stopped the script. */
  datatype Answer = Answer(opcodes: nat, counted: bool, consulted: bool, stop: bool)

  /** Everything that touches the counters during an execution. `now` is the
      clock; `flagged` is the host's atomic interrupt flag at that moment. */
  datatype Event =
    | Poll(now: nat, flagged: bool)
    | SegmentStart(now: nat)
    | SegmentEnd(now: nat)
    | RejectionInterrupts
    | HostCall
    | StatsReset
    | Discard(drained: seq<Event>)

  /** hostShouldInterrupt with the CLI's callback. */
  predicate HostStops(lim: Limits, flagged: bool, opcodes: nat, cpu: nat) {
    flagged || (lim.opcodes > 0 && opcodes > lim.opcodes) || (lim.cpu > 0 && cpu > lim.cpu)
  }

  function Sampled(c: Counters, now: nat): Counters {
    if c.start.Some? then c.(cpu := if now >= c.start.value then now - c.start.value else 0) else c
  }

  // ---------------------------------------------------------------- the handlers as functions

  function Polled(c: Counters, k: nat, lim: Limits, now: nat, flagged: bool): (Counters, Answer) {
    if c.draining || c.force then (c, Answer(c.opcodes, false, false, true))
    else
      var n := c.opcodes + QUANTUM;
      if !c.initialized || n < c.next then (c.(opcodes := n), Answer(n, true, false, false))
      else
        var d := Sampled(c.(opcodes := n, next := n + k), now);
        (d, Answer(n, true, true, HostStops(lim, flagged, n, d.cpu)))
  }

  function ResetStats(c: Counters, k: nat): Counters {
    c.(opcodes := 0, cpu := 0, start := None, next := k)
  }

  /** What an event leaves, and the answers it produced for the running script. */
  function Happened(c: Counters, k: nat, lim: Limits, e: Event): (Counters, seq<Answer>)
    decreases e, 0
  {
    match e
    case Poll(now, flagged) => var (d, a) := Polled(c, k, lim, now, flagged); (d, [a])
    case SegmentStart(now) => (c.(start := Some(now)), [])
    case SegmentEnd(now) => (Sampled(c, now).(start := None), [])
    case RejectionInterrupts => (c.(force := true), [])
    case HostCall => (c.(used := true), [])
    case StatsReset => (ResetStats(c, k), [])
    case Discard(drained) =>
      var c1 := c.(force := false, initialized := true);
      if !c1.used then (c1, [])
      else
        var d := Ran(c1.(used := false, draining := true), k, lim, drained).0;
        (d.(draining := false, opcodes := c1.opcodes, cpu := c1.cpu, start := c1.start, next := c1.next), [])
  }

  function Ran(c: Counters, k: nat, lim: Limits, events: seq<Event>): (Counters, seq<Answer>)
    decreases events, 1
  {
    if events == [] then (c, [])
    else
      var (d, a) := Happened(c, k, lim, events[0]);
      var (f, b) := Ran(d, k, lim, events[1..]);
      (f, a + b)
  }

  // ---------------------------------------------------------------- the handlers as they are

  class Tracking {
    const checkInterval: nat
    const limits: Limits
    var opcodeCount: nat
    var nextCheck: nat
    var cpuElapsedUs: nat
    var execStart: Option<nat>
    var draining: bool
    var initialized: bool
    var usedRpcCalls: bool
    var forceInterrupt: bool

    function View(): Counters
      reads this
    {
      Counters(opcodeCount, nextCheck, cpuElapsedUs, execStart, draining, initialized, usedRpcCalls, forceInterrupt)
    }

    constructor (k: nat, limits: Limits)
      ensures checkInterval == k && this.limits == limits
      ensures View() == Counters(0, k, 0, None, false, false, false, false)
    {
      checkInterval, this.limits := k, limits;
      opcodeCount, nextCheck, cpuElapsedUs, execStart := 0, k, 0, None;
      draining, initialized, usedRpcCalls, forceInterrupt := false, false, false, false;
    }

    method SampleElapsedUs(now: nat) returns (e: nat)
      modifies this`cpuElapsedUs
      ensures View() == Sampled(old(View()), now) && e == cpuElapsedUs
    {
      if execStart.Some? {
        cpuElapsedUs := if now >= execStart.value then now - execStart.value else 0;
      }
      e := cpuElapsedUs;
    }

    /** The closure given to set_interrupt_handler. */
    method InterruptHandler(now: nat, flagged: bool) returns (stop: bool, ghost answer: Answer)
      modifies this
      ensures (View(), answer) == Polled(old(View()), checkInterval, limits, now, flagged) && stop == answer.stop
    {
      if draining || forceInterrupt {
        return true, Answer(opcodeCount, false, false, true);
      }
      opcodeCount := opcodeCount + QUANTUM;
      if !initialized || opcodeCount < nextCheck {
        return false, Answer(opcodeCount, true, false, false);
      }
      nextCheck := opcodeCount + checkInterval;
      var elapsed := SampleElapsedUs(now);
      stop := HostStops(limits, flagged, opcodeCount, elapsed);
      answer := Answer(opcodeCount, true, true, stop);
    }

    method ResetExecutionStats()
      modifies this
      ensures View() == ResetStats(old(View()), checkInterval)
    {
      opcodeCount, cpuElapsedUs, execStart, nextCheck := 0, 0, None, checkInterval;
    }

    /** discard_stale_state: save the counters, drain, restore them. */
    method DiscardStaleState(drained: seq<Event>)
      modifies this
      ensures View() == Happened(old(View()), checkInterval, limits, Discard(drained)).0
      decreases drained, 1
    {
      forceInterrupt := false;
      initialized := true;
      if !usedRpcCalls {
        return;
      }
      usedRpcCalls := false;
      var saved := (opcodeCount, cpuElapsedUs, execStart, nextCheck);
      draining := true;
      ghost var answers := Run(drained);
      draining := false;
      opcodeCount, cpuElapsedUs, execStart, nextCheck := saved.0, saved.1, saved.2, saved.3;
    }

    /** Any sequence of events; `answers` is what the running script was told. */
    method Run(events: seq<Event>) returns (ghost answers: seq<Answer>)
      modifies this
      ensures (View(), answers) == Ran(old(View()), checkInterval, limits, events)
      decreases events, 0
    {
      answers := [];
      ghost var whole := Ran(View(), checkInterval, limits, events);
      assert answers + whole.1 == whole.1;
      var i := 0;
      while i < |events|
        invariant i <= |events|
        invariant Ran(View(), checkInterval, limits, events[i..]).0 == whole.0
        invariant answers + Ran(View(), checkInterval, limits, events[i..]).1 == whole.1
      {
        ghost var told := Happened(View(), checkInterval, limits, events[i]).1;
        RanNext(View(), checkInterval, limits, events, i, answers);
        match events[i] {
          case Poll(now, flagged) =>
            var stop, answer := InterruptHandler(now, flagged);
          case SegmentStart(now) =>
            execStart := Some(now);
          case SegmentEnd(now) =>
            var e := SampleElapsedUs(now);
            execStart := None;
          case RejectionInterrupts =>
            forceInterrupt := true;
          case HostCall =>
            usedRpcCalls := true;
          case StatsReset =>
            ResetExecutionStats();
          case Discard(drained) =>
            DiscardStaleState(drained);
        }
        answers := answers + told;
        i := i + 1;
      }
      assert answers + [] == answers;
    }

    /** execEval and execDispatch: reset the statistics, then run the export, which
        begins by discarding stale state, and the settlements. Each poll of the script
        is decided by the limits, and with nobody asking for an interrupt exactly as
        many continue as the opcode limit allows. */
    method Execution(drained: seq<Event>, events: seq<Event>) returns (ghost answers: seq<Answer>)
      requires !draining && checkInterval == CHECK_INTERVAL
      requires DrainOnly(drained) && forall e :: e in events ==> Ordinary(e)
      modifies this
      ensures (View(), answers) == Ran(Started(old(View()), limits, drained), CHECK_INTERVAL, limits, events)
      ensures |answers| == |Queries(events, None)|
      ensures forall j :: 0 <= j < |answers| ==> !answers[j].counted ==> answers[j].stop
      ensures forall j :: 0 <= j < |answers| && answers[j].counted && Queries(events, None)[j].start.Some? ==>
        var q := Queries(events, None)[j];
        answers[j].stop <==>
          || q.flagged
          || (limits.opcodes > 0 && answers[j].opcodes > limits.opcodes)
          || (limits.cpu > 0 && q.now > q.start.value + limits.cpu)
      ensures limits.cpu == 0 && Calm(events) && RejectionInterrupts !in drained ==>
        Continues(answers) == if limits.opcodes == 0 then |answers| else Least(|answers|, limits.opcodes / 10_000)
      ensures limits.opcodes > 0 ==> Bounded(answers, limits.opcodes)
    {
      ghost var c := View();
      ResetExecutionStats();
      DiscardStaleState(drained);
      answers := Run(events);
      StartedPhase(c, limits, drained);
      StartsAfresh(c, limits, drained);
      PollsAreDecided(Started(c, limits, drained), limits, 0, events);
      if limits.cpu == 0 && Calm(events) && RejectionInterrupts !in drained {
        ExactBudget(c, limits, drained, events);
      }
      if limits.opcodes > 0 {
        ExecutionIsBounded(c, limits, drained, events);
      }
    }
  }

  /** The opcode budget of an execution, whoever else interrupts it. */
  ghost predicate Bounded(answers: seq<Answer>, limit: nat) {
    && Continues(answers) <= limit / 10_000
    && (forall i :: 0 <= i < |answers| && !answers[i].stop ==> answers[i].opcodes <= limit)
    && (forall i, j :: 0 <= i <= j < |answers| && answers[i].counted && answers[i].opcodes > limit ==> answers[j].stop)
    && (forall i :: FirstPast(answers, i, limit) ==> answers[i].opcodes <= limit + 10_000)
  }

  lemma ExecutionIsBounded(c: Counters, lim: Limits, drained: seq<Event>, events: seq<Event>)
    requires !c.draining && DrainOnly(drained) && lim.opcodes > 0 && forall e :: e in events ==> Ordinary(e)
    ensures Bounded(Ran(Started(c, lim, drained), CHECK_INTERVAL, lim, events).1, lim.opcodes)
  {
    var answers := Ran(Started(c, lim, drained), CHECK_INTERVAL, lim, events).1;
    OpcodeBudget(c, lim, drained, events, 0, 0);
    forall i, j: nat | 0 <= i <= j < |answers|
      ensures !answers[i].stop ==> answers[i].opcodes <= lim.opcodes
      ensures answers[i].counted && answers[i].opcodes > lim.opcodes ==> answers[j].stop
    {
      OpcodeBudget(c, lim, drained, events, i, j);
    }
    forall i | FirstPast(answers, i, lim.opcodes)
      ensures answers[i].opcodes <= lim.opcodes + 10_000
    {
      OpcodeBudget(c, lim, drained, events, i, i);
    }
  }

  /** Answer i is the first whose count is past the limit. */
  predicate FirstPast(answers: seq<Answer>, i: int, limit: nat) {
    && 0 <= i < |answers| && answers[i].counted && answers[i].opcodes > limit
    && forall n :: 0 <= n < i ==> answers[n].opcodes <= limit
  }

  lemma RanNext(c: Counters, k: nat, lim: Limits, events: seq<Event>, i: nat, before: seq<Answer>)
    requires i < |events|
    ensures var (d, a) := Happened(c, k, lim, events[i]);
      var rest := Ran(d, k, lim, events[i + 1..]);
      && Ran(c, k, lim, events[i..]) == (rest.0, a + rest.1)
      && before + (a + rest.1) == (before + a) + rest.1
  {
    assert events[i..][1..] == events[i + 1..];
  }

  // ---------------------------------------------------------------- the drain

  /** Events of a drain: stale jobs are polled, may reject promises and may still
      reach the host. */
  predicate DrainOnly(events: seq<Event>) {
    forall e :: e in events ==> e.Poll? || e.RejectionInterrupts? || e.HostCall?
  }

  lemma {:induction false} DrainedOnly(c: Counters, k: nat, lim: Limits, events: seq<Event>)
    requires c.draining && DrainOnly(events)
    ensures Ran(c, k, lim, events).0 ==
      c.(force := c.force || RejectionInterrupts in events, used := c.used || HostCall in events)
    decreases |events|
  {
    if events != [] {
      assert events[0] in events;
      DrainedOnly(Happened(c, k, lim, events[0]).0, k, lim, events[1..]);
      assert events == [events[0]] + events[1..];
    }
  }

  /** Draining stale jobs changes no counter, however often they are polled. It
      can leave the new invocation force-interrupted from its first poll on:
      exactly when a drained job's rejection was answered with an interrupt, and the
      clean-up flag is up again exactly when a drained job reached the host. */
  lemma DiscardKeepsCounters(c: Counters, k: nat, lim: Limits, drained: seq<Event>)
    requires !c.draining && DrainOnly(drained)
    ensures var d := Happened(c, k, lim, Discard(drained)).0;
      && d == c.(initialized := true, used := d.used, force := d.force)
      && (d.used <==> c.used && HostCall in drained)
      && (d.force <==> c.used && RejectionInterrupts in drained)
      && (forall now, flagged :: Polled(d, k, lim, now, flagged).1.consulted ==> !d.force)
  {
    if c.used {
      DrainedOnly(c.(force := false, initialized := true, used := false, draining := true), k, lim, drained);
    }
  }

  // ---------------------------------------------------------------- check spacing

  /** The next check is never more than one interval away, whatever happens:
      polls, resets, drains of anything, segments and rejections. */
  lemma {:induction false} NextCheckIsNear(c: Counters, k: nat, lim: Limits, events: seq<Event>)
    requires c.next <= c.opcodes + k
    ensures var d := Ran(c, k, lim, events).0; d.next <= d.opcodes + k
    decreases |events|
  {
    if events != [] {
      NextCheckIsNear(Happened(c, k, lim, events[0]).0, k, lim, events[1..]);
    }
  }

  /** Polls between two consultations of the host: k / 10000 rounded up. */
  function Stride(k: nat): nat {
    (k + QUANTUM - 1) / QUANTUM
  }

  /** After m counted polls the last consultation was at the last multiple of the stride. */
  ghost predicate Phase(c: Counters, k: nat, m: nat)
    requires k > 0
  {
    && c.initialized && !c.draining
    && c.opcodes == QUANTUM * m
    && c.next == QUANTUM * (m - m % Stride(k)) + k
  }

  /** An event other than a reset of the statistics. */
  predicate Ordinary(e: Event) {
    !e.StatsReset? && (e.Discard? ==> DrainOnly(e.drained))
  }

  lemma NextInStride(m: nat, s: nat)
    requires s > 0
    ensures (m + 1) % s == if m % s + 1 == s then 0 else m % s + 1
  {
    var q, r := m / s, m % s;
    assert m == s * q + r;
    if r + 1 == s {
      assert m + 1 == s * (q + 1);
      DivModUnique(m + 1, s, q + 1, 0);
    } else {
      DivModUnique(m + 1, s, q, r + 1);
    }
  }

  lemma StrideBounds(k: nat)
    requires k > 0
    ensures Stride(k) > 0 && QUANTUM * (Stride(k) - 1) < k <= QUANTUM * Stride(k)
  {
  }

  lemma PollKeepsPhase(c: Counters, k: nat, lim: Limits, m: nat, now: nat, flagged: bool)
    requires k > 0 && Phase(c, k, m) && !c.force
    ensures var (d, a) := Polled(c, k, lim, now, flagged);
      Phase(d, k, m + 1) && a.opcodes == QUANTUM * (m + 1) && (a.consulted <==> (m + 1) % Stride(k) == 0)
  {
    StrideBounds(k);
    NextInStride(m, Stride(k));
    var r := m % Stride(k);
    assert r < Stride(k);
  }

  lemma EventKeepsPhase(c: Counters, k: nat, lim: Limits, m: nat, e: Event)
    requires k > 0 && Phase(c, k, m) && Ordinary(e)
    requires !(e.Poll? && !c.force)
    ensures Phase(Happened(c, k, lim, e).0, k, m)
    ensures forall a :: a in Happened(c, k, lim, e).1 ==> a.stop && !a.consulted
  {
    if e.Discard? { DiscardKeepsCounters(c, k, lim, e.drained); }
  }

  /** The answers of a run that starts after m counted polls: forced polls stop
      without counting, counted ones ask the host at the multiples of the stride. */
  ghost predicate Spaced(answers: seq<Answer>, k: nat, m: nat)
    requires k > 0
  {
    answers == [] ||
    var a := answers[0];
    if a.counted then
      && a.opcodes == QUANTUM * (m + 1) && (a.consulted <==> (m + 1) % Stride(k) == 0)
      && Spaced(answers[1..], k, m + 1)
    else a.stop && !a.consulted && Spaced(answers[1..], k, m)
  }

  lemma {:induction false} RunIsSpaced(c: Counters, k: nat, lim: Limits, m: nat, events: seq<Event>)
    requires k > 0 && Phase(c, k, m) && forall e :: e in events ==> Ordinary(e)
    ensures Spaced(Ran(c, k, lim, events).1, k, m)
    decreases |events|
  {
    if events != [] {
      var e, rest := events[0], events[1..];
      assert e in events;
      var (d, a) := Happened(c, k, lim, e);
      if e.Poll? && !c.force {
        PollKeepsPhase(c, k, lim, m, e.now, e.flagged);
        RunIsSpaced(d, k, lim, m + 1, rest);
      } else {
        EventKeepsPhase(c, k, lim, m, e);
        RunIsSpaced(d, k, lim, m, rest);
      }
      var b := Ran(d, k, lim, rest).1;
      if a == [] {
        assert a + b == b;
      } else {
        assert (a + b)[0] == a[0] && (a + b)[1..] == b;
      }
    }
  }

  /** The first consultation after m counted polls is at the next multiple. */
  lemma {:induction false} FirstConsultation(answers: seq<Answer>, k: nat, m: nat, j: nat)
    requires k > 0 && Spaced(answers, k, m) && j < |answers| && answers[j].consulted
    requires forall i :: 0 <= i < j ==> !answers[i].consulted
    ensures answers[j].opcodes == QUANTUM * (m - m % Stride(k) + Stride(k))
    decreases j
  {
    StrideBounds(k);
    NextInStride(m, Stride(k));
    if j > 0 {
      assert !answers[0].consulted;
      FirstConsultation(answers[1..], k, if answers[0].counted then m + 1 else m, j - 1);
    }
  }

  /** Check spacing: in a run without resets, consecutive consultations of the
      host are exactly 10000 * ceil(k / 10000) counted opcodes apart. */
  lemma {:induction false} ConsultationsAreEvenlySpaced(answers: seq<Answer>, k: nat, m: nat, i: nat, j: nat)
    requires k > 0 && Spaced(answers, k, m) && i < j < |answers|
    requires answers[i].consulted && answers[j].consulted
    requires forall n :: i < n < j ==> !answers[n].consulted
    ensures answers[j].opcodes - answers[i].opcodes == 10_000 * ((k + 9_999) / 10_000)
    decreases i
  {
    StrideBounds(k);
    if i > 0 {
      ConsultationsAreEvenlySpaced(answers[1..], k, if answers[0].counted then m + 1 else m, i - 1, j - 1);
    } else {
      FirstConsultation(answers[1..], k, m + 1, j - 1);
    }
  }

  // ---------------------------------------------------------------- the opcode budget

  function Continues(answers: seq<Answer>): nat {
    if answers == [] then 0 else (if answers[0].stop then 0 else 1) + Continues(answers[1..])
  }

  /** Every answer of a run obeys the limit. */
  lemma {:induction false} AnswersObeyLimit(c: Counters, k: nat, lim: Limits, events: seq<Event>)
    requires lim.opcodes > 0
    ensures forall a :: a in Ran(c, k, lim, events).1 && a.consulted && a.opcodes > lim.opcodes ==> a.stop
    decreases |events|
  {
    if events != [] {
      AnswersObeyLimit(Happened(c, k, lim, events[0]).0, k, lim, events[1..]);
    }
  }

  lemma {:induction false} SpacedBudget(answers: seq<Answer>, m: nat, limit: nat)
    requires Spaced(answers, CHECK_INTERVAL, m)
    requires forall a :: a in answers && a.consulted && a.opcodes > limit ==> a.stop
    ensures Continues(answers) + m <= if m <= limit / QUANTUM then limit / QUANTUM else m
    ensures forall i :: 0 <= i < |answers| && !answers[i].stop ==> answers[i].opcodes <= limit
    ensures m > limit / QUANTUM ==> forall i :: 0 <= i < |answers| ==> answers[i].stop
    decreases |answers|
  {
    if answers != [] {
      var a, rest := answers[0], answers[1..];
      assert a in answers;
      assert forall b :: b in rest ==> b in answers;
      SpacedBudget(rest, if a.counted then m + 1 else m, limit);
      assert forall i :: 0 < i < |answers| ==> answers[i] == rest[i - 1];
    }
  }

  lemma {:induction false} SpacedAfter(answers: seq<Answer>, m: nat, limit: nat, i: nat, j: nat)
    requires Spaced(answers, CHECK_INTERVAL, m) && i <= j < |answers| && answers[i].counted && answers[i].opcodes > limit
    requires forall a :: a in answers && a.consulted && a.opcodes > limit ==> a.stop
    ensures answers[j].stop
    ensures (forall n :: 0 <= n < i ==> answers[n].opcodes <= limit) && QUANTUM * m <= limit ==> answers[i].opcodes <= limit + QUANTUM
    decreases i
  {
    var a, rest := answers[0], answers[1..];
    assert a in answers;
    assert forall b :: b in rest ==> b in answers;
    if i == 0 {
      SpacedBudget(rest, m + 1, limit);
      if j > 0 { assert answers[j] == rest[j - 1]; }
    } else {
      SpacedAfter(rest, if a.counted then m + 1 else m, limit, i - 1, j - 1);
      assert answers[j] == rest[j - 1] && forall n :: 0 <= n < i - 1 ==> rest[n] == answers[n + 1];
    }
  }

  /** The counters when an execution starts: execEval and execDispatch reset the
      statistics, then the export begins by discarding stale state. */
  ghost function Started(c: Counters, lim: Limits, drained: seq<Event>): Counters {
    Happened(ResetStats(c, CHECK_INTERVAL), CHECK_INTERVAL, lim, Discard(drained)).0
  }

  lemma StartedPhase(c: Counters, lim: Limits, drained: seq<Event>)
    requires !c.draining && DrainOnly(drained)
    ensures Phase(Started(c, lim, drained), CHECK_INTERVAL, 0)
  {
    DiscardKeepsCounters(ResetStats(c, CHECK_INTERVAL), CHECK_INTERVAL, lim, drained);
  }

  /** The opcode budget: in one execution with limit M > 0, over its eval and all
      settlement segments, at most M / 10000 polls let the script continue, none
      of them past M; once the count is past M every poll stops the script; and
      the first count past M is at most M + 10000. */
  lemma OpcodeBudget(c: Counters, lim: Limits, drained: seq<Event>, events: seq<Event>, i: nat, j: nat)
    requires !c.draining && DrainOnly(drained) && lim.opcodes > 0 && forall e :: e in events ==> Ordinary(e)
    ensures var answers := Ran(Started(c, lim, drained), CHECK_INTERVAL, lim, events).1;
      && Continues(answers) <= lim.opcodes / 10_000
      && (i < |answers| && !answers[i].stop ==> answers[i].opcodes <= lim.opcodes)
      && (i <= j < |answers| && answers[i].counted && answers[i].opcodes > lim.opcodes ==>
            && answers[j].stop
            && ((forall n :: 0 <= n < i ==> answers[n].opcodes <= lim.opcodes) ==> answers[i].opcodes <= lim.opcodes + 10_000))
  {
    var s := Started(c, lim, drained);
    var answers := Ran(s, CHECK_INTERVAL, lim, events).1;
    StartedPhase(c, lim, drained);
    RunIsSpaced(s, CHECK_INTERVAL, lim, 0, events);
    AnswersObeyLimit(s, CHECK_INTERVAL, lim, events);
    SpacedBudget(answers, 0, lim.opcodes);
    if i <= j < |answers| && answers[i].counted && answers[i].opcodes > lim.opcodes {
      SpacedAfter(answers, 0, lim.opcodes, i, j);
    }
  }

  /** The actual interval never skips the host: every counted poll asks. */
  lemma {:induction false} EveryPollAsks(answers: seq<Answer>, m: nat, i: nat)
    requires Spaced(answers, CHECK_INTERVAL, m) && i < |answers| && answers[i].counted
    ensures answers[i].consulted
    decreases i
  {
    if i > 0 {
      EveryPollAsks(answers[1..], if answers[0].counted then m + 1 else m, i - 1);
    }
  }

  // ---------------------------------------------------------------- exactly when a poll stops the script

  /** What a poll finds: the host's flag, the clock, and when the export that is
      running began. */
  datatype Query = Query(flagged: bool, now: nat, start: Option<nat>)

  /** The polls of a run, by its events alone; `start` is that of an export already
      running. A clean-up's own polls answer no running script. */
  function Queries(events: seq<Event>, start: Option<nat>): seq<Query> {
    if events == [] then []
    else
      match events[0]
      case Poll(now, flagged) => [Query(flagged, now, start)] + Queries(events[1..], start)
      case SegmentStart(now) => Queries(events[1..], Some(now))
      case SegmentEnd(_) => Queries(events[1..], None)
      case StatsReset => Queries(events[1..], None)
      case _ => Queries(events[1..], start)
  }

  /** The decision on a counted poll, in the terms of the two limits. */
  ghost predicate DecidedBy(a: Answer, q: Query, lim: Limits) {
    && (!a.counted ==> a.stop)
    && (a.counted && q.start.Some? ==>
          (a.stop <==>
            || q.flagged
            || (lim.opcodes > 0 && a.opcodes > lim.opcodes)
            || (lim.cpu > 0 && q.now > q.start.value + lim.cpu)))
  }

  lemma PollIsDecided(c: Counters, lim: Limits, m: nat, now: nat, flagged: bool)
    requires Phase(c, CHECK_INTERVAL, m)
    ensures var (d, a) := Polled(c, CHECK_INTERVAL, lim, now, flagged);
      d.start == c.start && DecidedBy(a, Query(flagged, now, c.start), lim)
  {
  }

  lemma EventKeepsStart(c: Counters, k: nat, lim: Limits, e: Event)
    requires !e.Poll?
    ensures var (d, a) := Happened(c, k, lim, e);
      && a == []
      && d.start == match e
           case SegmentStart(now) => Some(now)
           case SegmentEnd(_) => None
           case StatsReset => None
           case _ => c.start
  {
  }

  lemma {:induction false} PollsAreDecided(c: Counters, lim: Limits, m: nat, events: seq<Event>)
    requires Phase(c, CHECK_INTERVAL, m) && forall e :: e in events ==> Ordinary(e)
    ensures var answers, queries := Ran(c, CHECK_INTERVAL, lim, events).1, Queries(events, c.start);
      |answers| == |queries| && forall j :: 0 <= j < |answers| ==> DecidedBy(answers[j], queries[j], lim)
    decreases |events|
  {
    if events != [] {
      var e, rest := events[0], events[1..];
      assert e in events;
      var (d, a) := Happened(c, CHECK_INTERVAL, lim, e);
      if e.Poll? {
        PollIsDecided(c, lim, m, e.now, e.flagged);
        if !c.force {
          PollKeepsPhase(c, CHECK_INTERVAL, lim, m, e.now, e.flagged);
          PollsAreDecided(d, lim, m + 1, rest);
        } else {
          PollsAreDecided(d, lim, m, rest);
        }
      } else {
        EventKeepsStart(c, CHECK_INTERVAL, lim, e);
        EventKeepsPhase(c, CHECK_INTERVAL, lim, m, e);
        PollsAreDecided(d, lim, m, rest);
        assert [] + Ran(d, CHECK_INTERVAL, lim, rest).1 == Ran(d, CHECK_INTERVAL, lim, rest).1;
      }
    }
  }

  /** Nobody asks for an interrupt: the flag is down at every poll and no rejection
      is answered with one, in the drained jobs either. */
  predicate Calm(events: seq<Event>) {
    forall e :: e in events ==>
      && (e.Poll? ==> !e.flagged) && !e.RejectionInterrupts?
      && (e.Discard? ==> RejectionInterrupts !in e.drained)
  }

  function Least(a: nat, b: nat): nat {
    if a <= b then a else b
  }

  /** Polls that a limit still allows after m of them. */
  function Room(limit: nat, m: nat): nat {
    if limit / QUANTUM > m then limit / QUANTUM - m else 0
  }

  lemma CalmPoll(c: Counters, lim: Limits, m: nat, now: nat)
    requires Phase(c, CHECK_INTERVAL, m) && !c.force && lim.cpu == 0
    ensures var (d, a) := Polled(c, CHECK_INTERVAL, lim, now, false);
      a.counted && !d.force && (a.stop <==> lim.opcodes > 0 && Room(lim.opcodes, m) == 0)
  {
  }

  lemma CalmEvent(c: Counters, lim: Limits, m: nat, e: Event)
    requires Phase(c, CHECK_INTERVAL, m) && Ordinary(e) && Calm([e]) && !e.Poll? && !c.force
    ensures Happened(c, CHECK_INTERVAL, lim, e).1 == [] && !Happened(c, CHECK_INTERVAL, lim, e).0.force
    ensures Phase(Happened(c, CHECK_INTERVAL, lim, e).0, CHECK_INTERVAL, m)
  {
    assert e in [e];
    EventKeepsPhase(c, CHECK_INTERVAL, lim, m, e);
    if e.Discard? { DiscardKeepsCounters(c, CHECK_INTERVAL, lim, e.drained); }
  }

  lemma {:induction false} CalmRun(c: Counters, lim: Limits, m: nat, events: seq<Event>)
    requires Phase(c, CHECK_INTERVAL, m) && !c.force && lim.cpu == 0
    requires Calm(events) && forall e :: e in events ==> Ordinary(e)
    ensures var answers := Ran(c, CHECK_INTERVAL, lim, events).1;
      && (forall a :: a in answers ==> a.counted)
      && Continues(answers) == if lim.opcodes == 0 then |answers| else Least(|answers|, Room(lim.opcodes, m))
    decreases |events|
  {
    if events != [] {
      var e, rest := events[0], events[1..];
      assert e in events && Calm([e]) && Calm(rest);
      var (d, a) := Happened(c, CHECK_INTERVAL, lim, e);
      var b;
      if e.Poll? {
        CalmPoll(c, lim, m, e.now);
        PollKeepsPhase(c, CHECK_INTERVAL, lim, m, e.now, e.flagged);
        CalmRun(d, lim, m + 1, rest);
        b := Ran(d, CHECK_INTERVAL, lim, rest).1;
        assert (a + b)[0] == a[0] && (a + b)[1..] == b;
      } else {
        CalmEvent(c, lim, m, e);
        CalmRun(d, lim, m, rest);
        b := Ran(d, CHECK_INTERVAL, lim, rest).1;
        assert a + b == b;
      }
    }
  }

  /** Exactly how far a script gets on opcodes alone: with no CPU limit and nobody
      asking for an interrupt, every poll continues when the opcode limit is off, and
      the first M / 10000 polls and no others when it is M. */
  lemma ExactBudget(c: Counters, lim: Limits, drained: seq<Event>, events: seq<Event>)
    requires !c.draining && DrainOnly(drained) && lim.cpu == 0 && forall e :: e in events ==> Ordinary(e)
    requires Calm(events) && RejectionInterrupts !in drained
    ensures var answers := Ran(Started(c, lim, drained), CHECK_INTERVAL, lim, events).1;
      && |answers| == |Queries(events, None)|
      && Continues(answers) == if lim.opcodes == 0 then |answers| else Least(|answers|, lim.opcodes / 10_000)
  {
    StartedPhase(c, lim, drained);
    StartsAfresh(c, lim, drained);
    CalmRun(Started(c, lim, drained), lim, 0, events);
    PollsAreDecided(Started(c, lim, drained), lim, 0, events);
  }

  lemma StartsAfresh(c: Counters, lim: Limits, drained: seq<Event>)
    requires !c.draining && DrainOnly(drained)
    ensures Started(c, lim, drained).start == None
    ensures RejectionInterrupts !in drained ==> !Started(c, lim, drained).force
  {
    DiscardKeepsCounters(ResetStats(c, CHECK_INTERVAL), CHECK_INTERVAL, lim, drained);
  }

  /** Before the first invocation polls count but neither ask nor stop. */
  lemma QuietBeforeFirstUse(c: Counters, k: nat, lim: Limits, now: nat, flagged: bool)
    requires !c.initialized && !c.draining && !c.force
    ensures Polled(c, k, lim, now, flagged) == (c.(opcodes := c.opcodes + 10_000), Answer(c.opcodes + 10_000, true, false, false))
  {
  }

  /** The CPU time that a call samples is the time since the running export began;
      outside an export it is the last sample. */
  lemma SampledIsElapsed(c: Counters, now: nat)
    ensures c.start.None? ==> Sampled(c, now) == c
    ensures c.start.Some? && c.start.value <= now ==> Sampled(c, now).cpu + c.start.value == now
    ensures Sampled(c, now) == c.(cpu := Sampled(c, now).cpu)
  {
  }

  lemma ResetClears(c: Counters, k: nat)
    ensures var d := ResetStats(c, k);
      d.opcodes == 0 && d.cpu == 0 && d.start == None && d.next == k &&
      d == c.(opcodes := 0, cpu := 0, start := None, next := k)
  {
  }

  /** No export begins or ends, and the statistics are not reset. */
  predicate WithinSegment(events: seq<Event>) {
    forall e :: e in events ==> !e.SegmentStart? && !e.SegmentEnd? && !e.StatsReset?
  }

  lemma {:induction false} StartLasts(c: Counters, k: nat, lim: Limits, events: seq<Event>)
    requires WithinSegment(events)
    ensures Ran(c, k, lim, events).0.start == c.start
    decreases |events|
  {
    if events != [] {
      assert events[0] in events;
      var d := Happened(c, k, lim, events[0]).0;
      if !events[0].Poll? {
        EventKeepsStart(c, k, lim, events[0]);
      }
      assert forall e :: e in events[1..] ==> e in events;
      StartLasts(d, k, lim, events[1..]);
    }
  }

  lemma {:induction false} RanConcat(c: Counters, k: nat, lim: Limits, a: seq<Event>, b: seq<Event>)
    ensures Ran(c, k, lim, a + b).0 == Ran(Ran(c, k, lim, a).0, k, lim, b).0
    decreases |a|
  {
    if a == [] {
      assert a + b == b;
    } else {
      assert (a + b)[1..] == a[1..] + b;
      RanConcat(Happened(c, k, lim, a[0]).0, k, lim, a[1..], b);
    }
  }

  /** The CPU time left for the host to read is that of the last export alone,
      however often it was sampled in between. */
  lemma LastExportIsReported(c: Counters, k: nat, lim: Limits, t0: nat, within: seq<Event>, t1: nat)
    requires WithinSegment(within) && t0 <= t1
    ensures var d := Ran(c, k, lim, [SegmentStart(t0)] + (within + [SegmentEnd(t1)])).0;
      d.cpu == t1 - t0 && d.start == None
  {
    var begun := c.(start := Some(t0));
    assert ([SegmentStart(t0)] + (within + [SegmentEnd(t1)]))[1..] == within + [SegmentEnd(t1)];
    RanConcat(begun, k, lim, within, [SegmentEnd(t1)]);
    StartLasts(begun, k, lim, within);
    assert [SegmentEnd(t1)][1..] == [];
  }
}
