/** The spin loop: a waiter that polls a predicate on a shared buffer and sleeps on a hardware monitor
    between polls, while other threads write to the buffer.

    The waiter makes one step at a time (a call of the callback, a clock sample, arming the monitor,
    waking, a pause); writes may come between any two steps. */
module SpinLoop {
  import opened Arithmetic
  import opened Options

  type Buffer = seq<nat>

  datatype Timespec = Timespec(sec: int, nsec: int)

  function Elapsed(start: Timespec, now: Timespec): real {
    (now.sec - start.sec) as real + (now.nsec - start.nsec) as real * 0.000000001
  }

  const WORD := 0x1_0000_0000

  /** What is fixed for a call. The callback answers whether `ready` holds of the buffer, which lies at
      address `base`. The monitor watches the line of `maxLine` bytes that holds that address. */
  datatype Config = Config(
      ready: Buffer -> bool, start: Timespec, timeout: real, monitorx: bool, maxLine: nat, base: nat)
  {
    predicate HaveTimeout() {
      timeout > 0.000000001
    }

    predicate UsesMonitor(buf: Buffer) {
      |buf| <= maxLine && monitorx
    }

    /** The byte at this offset is in the line that the monitor watches. */
    predicate Watches(at: nat) {
      maxLine > 0 && (base + at) / maxLine == base / maxLine
    }

    /** The buffer does not reach into the next line. */
    predicate InOneLine(buf: Buffer) {
      maxLine > 0 && base % maxLine + |buf| <= maxLine
    }

    predicate TimedOut(now: Timespec) {
      Elapsed(start, now) >= timeout
    }
  }

  datatype Outcome = True | False | Error

  /** The waiter's next step, or how it returned. */
  datatype Pc = CallFirst | Clock | Arm | CallSecond | MWait | Pause | Returned(outcome: Outcome)

  /** A write to the monitored line while the monitor is armed triggers it. */
  datatype State = State(pc: Pc, iteration: nat, buf: Buffer, armed: bool, triggered: bool)

  /** What a step of the waiter finds: whether the callback raises, what the clock says (None when it
      fails), and whether the processor leaves the wait for another reason than the monitor. */
  datatype Answer = Answer(raises: bool, now: Option<Timespec>, wakes: bool)

  datatype Event = Write(at: nat, value: nat) | Tick(answer: Answer)

  // ---- steps ----

  /** The end of the polling part of an iteration. */
  function Pass(cfg: Config, s: State): State {
    s.(pc := if cfg.UsesMonitor(s.buf) then Arm else Pause, iteration := (s.iteration + 1) % WORD)
  }

  /** Where the waiter goes when a callback does not answer true. */
  function Unready(cfg: Config, s: State): State {
    if s.pc.CallSecond? then s.(pc := MWait)
    else if cfg.HaveTimeout() && s.iteration % 16 == 0 then s.(pc := Clock)
    else Pass(cfg, s)
  }

  function CallStep(cfg: Config, s: State, a: Answer): State {
    if a.raises then s.(pc := Returned(Error))
    else if cfg.ready(s.buf) then s.(pc := Returned(True))
    else Unready(cfg, s)
  }

  function WaiterStep(cfg: Config, s: State, a: Answer): State {
    match s.pc
    case CallFirst => CallStep(cfg, s, a)
    case Clock =>
      if a.now.None? then s.(pc := Returned(Error))
      else if cfg.TimedOut(a.now.value) then s.(pc := Returned(False))
      else Pass(cfg, s)
    case Arm => s.(pc := CallSecond, armed := true, triggered := false)
    case CallSecond => CallStep(cfg, s, a)
    case MWait => if s.triggered || a.wakes then s.(pc := CallFirst, armed := false) else s
    case Pause => s.(pc := CallFirst)
    case Returned(_) => s
  }

  function WriteStep(cfg: Config, s: State, at: nat, value: nat): State {
    if at < |s.buf| then
      s.(buf := s.buf[at := value], triggered := s.triggered || (s.armed && cfg.Watches(at)))
    else s
  }

  function Step(cfg: Config, s: State, e: Event): State {
    match e
    case Write(at, value) => WriteStep(cfg, s, at, value)
    case Tick(a) => WaiterStep(cfg, s, a)
  }

  function Init(buf: Buffer): State {
    State(CallFirst, 0, buf, false, false)
  }

  function Run(cfg: Config, s: State, events: seq<Event>): State
    decreases |events|
  {
    if events == [] then s else Run(cfg, Step(cfg, s, events[0]), events[1..])
  }

  // ---- time ----

  const SECOND := 1_000_000_000

  /** A reading as the clock gives it. */
  predicate IsReading(t: Timespec) {
    0 <= t.nsec < SECOND
  }

  /** The reading d nanoseconds after another. */
  function Later(t: Timespec, d: int): (r: Timespec)
    requires IsReading(t)
    ensures IsReading(r)
  {
    Timespec(t.sec + (t.nsec + d) / SECOND, (t.nsec + d) % SECOND)
  }

  predicate NotAfter(t: Timespec, u: Timespec) {
    t.sec < u.sec || (t.sec == u.sec && t.nsec <= u.nsec)
  }

  /** The time between two readings is what has passed between them, also where the nanoseconds carry or
      borrow: the timeout is reached exactly when that many nanoseconds have. */
  lemma TimedOutExactly(cfg: Config, d: int)
    requires IsReading(cfg.start)
    ensures cfg.TimedOut(Later(cfg.start, d)) <==> d as real * 0.000000001 >= cfg.timeout
  {
    var start, now := cfg.start, Later(cfg.start, d);
    assert start.nsec + d == (start.nsec + d) / SECOND * SECOND + (start.nsec + d) % SECOND;
    assert (now.sec - start.sec) * SECOND + (now.nsec - start.nsec) == d;
    InSeconds(now.sec - start.sec, now.nsec - start.nsec, d);
  }

  lemma InSeconds(sec: int, nsec: int, d: int)
    requires sec * SECOND + nsec == d
    ensures sec as real + nsec as real * 0.000000001 == d as real * 0.000000001
  {
    assert (sec * SECOND) as real == sec as real * 1000000000.0;
    assert d as real == sec as real * 1000000000.0 + nsec as real;
  }

  /** Every reading is the start's, so many nanoseconds later or earlier. */
  lemma IsLater(t: Timespec, u: Timespec) returns (d: int)
    requires IsReading(t) && IsReading(u)
    ensures u == Later(t, d) && (d >= 0 <==> NotAfter(t, u))
  {
    d := (u.sec - t.sec) * SECOND + u.nsec - t.nsec;
    assert t.nsec + d == (u.sec - t.sec) * SECOND + u.nsec;
    assert (t.nsec + d) / SECOND == u.sec - t.sec && (t.nsec + d) % SECOND == u.nsec;
  }

  /** Once the timeout is reached it stays so. */
  lemma TimedOutStays(cfg: Config, t: Timespec, u: Timespec)
    requires IsReading(cfg.start) && IsReading(t) && IsReading(u) && NotAfter(t, u) && cfg.TimedOut(t)
    ensures cfg.TimedOut(u)
  {
    var d := IsLater(cfg.start, t);
    var e := IsLater(cfg.start, u);
    TimedOutExactly(cfg, d);
    TimedOutExactly(cfg, e);
    assert d <= e;
  }

  // ---- no wake-up is lost ----

  /** The monitor, where it is used, watches the whole buffer. */
  predicate Covered(cfg: Config, buf: Buffer) {
    cfg.UsesMonitor(buf) && buf != [] ==> cfg.InOneLine(buf)
  }

  lemma WatchesExactly(cfg: Config, at: nat)
    requires cfg.maxLine > 0
    ensures cfg.Watches(at) <==> cfg.base % cfg.maxLine + at < cfg.maxLine
  {
    var q, r, line := cfg.base / cfg.maxLine, cfg.base % cfg.maxLine, cfg.maxLine;
    assert cfg.base == q * line + r;
    assert cfg.base + at == (cfg.base + at) / line * line + (cfg.base + at) % line;
    if r + at < line {
      DivModUnique(q, r + at, line);
    }
  }

  /** A waiter asleep on an untriggered monitor has nothing to wake for, if the monitor covers the
      buffer. */
  ghost predicate Inv(cfg: Config, s: State) {
    && s.iteration < WORD
    && (s.pc.Clock? ==> cfg.HaveTimeout() && s.iteration % 16 == 0)
    && (s.pc.Arm? || s.pc.CallSecond? || s.pc.MWait? ==> cfg.UsesMonitor(s.buf))
    && (s.pc.CallSecond? || s.pc.MWait? ==> s.armed)
    && (s.pc.MWait? && !s.triggered && Covered(cfg, s.buf) ==> !cfg.ready(s.buf))
  }

  lemma StepKeeps(cfg: Config, s: State, e: Event)
    requires Inv(cfg, s)
    ensures Inv(cfg, Step(cfg, s, e)) && |Step(cfg, s, e).buf| == |s.buf|
    ensures Covered(cfg, s.buf) ==> Covered(cfg, Step(cfg, s, e).buf)
  {
    if e.Write? && e.at < |s.buf| && cfg.maxLine > 0 {
      WatchesExactly(cfg, e.at);
    }
  }

  lemma {:induction false} RunKeeps(cfg: Config, s: State, events: seq<Event>)
    requires Inv(cfg, s)
    ensures Inv(cfg, Run(cfg, s, events)) && |Run(cfg, s, events).buf| == |s.buf|
    ensures Covered(cfg, s.buf) ==> Covered(cfg, Run(cfg, s, events).buf)
    decreases |events|
  {
    if events != [] {
      StepKeeps(cfg, s, events[0]);
      RunKeeps(cfg, Step(cfg, s, events[0]), events[1..]);
    }
  }

  /** The waiter is not in an untriggered wait while the predicate holds. */
  predicate Attentive(cfg: Config, s: State) {
    s.pc.MWait? && cfg.ready(s.buf) ==> s.armed && s.triggered
  }

  /** No wake-up is lost, whatever the predicate and in every interleaving, if and only if the monitor
      covers the buffer. That the buffer is no longer than a line, which is all that is checked, does
      not make it so: it may begin in one line and end in the next. */
  lemma NoWakeUpLost(cfg: Config, buf: Buffer)
    ensures (forall ready: Buffer -> bool, b: Buffer, events: seq<Event> :: |b| == |buf| ==>
              Attentive(cfg.(ready := ready), Run(cfg.(ready := ready), Init(b), events)))
       <==> Covered(cfg, buf)
  {
    if Covered(cfg, buf) {
      forall ready: Buffer -> bool, b: Buffer, events: seq<Event> | |b| == |buf|
        ensures Attentive(cfg.(ready := ready), Run(cfg.(ready := ready), Init(b), events))
      {
        NeverAsleepWhenReady(cfg.(ready := ready), b, events);
      }
    } else {
      var ready, b, events := LostWakeUp(cfg, buf);
    }
  }

  /** In every interleaving the waiter is never in an untriggered wait while the predicate holds. */
  lemma NeverAsleepWhenReady(cfg: Config, buf: Buffer, events: seq<Event>)
    requires Covered(cfg, buf)
    ensures Attentive(cfg, Run(cfg, Init(buf), events))
  {
    RunKeeps(cfg, Init(buf), events);
  }

  /** The waiter goes to sleep on a buffer of zeros, and then the byte it waits for, in the next line,
      becomes 1. */
  lemma LostWakeUp(cfg: Config, buf: Buffer) returns (ready: Buffer -> bool, b: Buffer, events: seq<Event>)
    requires !Covered(cfg, buf)
    ensures |b| == |buf| && !Attentive(cfg.(ready := ready), Run(cfg.(ready := ready), Init(b), events))
  {
    var at := |buf| - 1;
    WatchesExactly(cfg, at);
    ready := x => |x| > at && x[at] == 1;
    b := seq(|buf|, _ => 0);
    var crossing := cfg.(ready := ready);
    var tick := Tick(Answer(false, Some(cfg.start), false));
    var sleeps := if cfg.HaveTimeout() then [tick, tick, tick, tick] else [tick, tick, tick];
    FallsAsleep(crossing, b, tick, sleeps);
    events := sleeps + [Write(at, 1)];
    RunSnoc(crossing, Init(b), sleeps, Write(at, 1));
  }

  lemma FallsAsleep(cfg: Config, b: Buffer, tick: Event, events: seq<Event>)
    requires cfg.UsesMonitor(b) && !cfg.ready(b) && tick == Tick(Answer(false, Some(cfg.start), false))
    requires events == if cfg.HaveTimeout() then [tick, tick, tick, tick] else [tick, tick, tick]
    ensures Run(cfg, Init(b), events) == State(MWait, 1, b, true, false)
  {
    var s0 := Init(b);
    if cfg.HaveTimeout() {
      var s1 := Step(cfg, s0, tick);
      assert s1 == s0.(pc := Clock);
      assert events[1..] == [tick, tick, tick] && Run(cfg, s0, events) == Run(cfg, s1, [tick, tick, tick]);
    }
    var s2 := State(Arm, 1, b, false, false);
    var s3 := State(CallSecond, 1, b, true, false);
    assert [tick, tick, tick][1..] == [tick, tick] && [tick, tick][1..] == [tick];
    assert Run(cfg, s0, events) == Run(cfg, s2, [tick, tick]);
    assert Run(cfg, s2, [tick, tick]) == Run(cfg, s3, [tick]);
    assert [tick][1..] == [] && Run(cfg, s3, [tick]) == Step(cfg, s3, tick);
  }

  lemma {:induction false} RunSnoc(cfg: Config, s: State, events: seq<Event>, e: Event)
    ensures Run(cfg, s, events + [e]) == Step(cfg, Run(cfg, s, events), e)
    decreases |events|
  {
    if events == [] {
      assert [e][1..] == [] && events + [e] == [e];
    } else {
      assert (events + [e])[1..] == events[1..] + [e];
      RunSnoc(cfg, Step(cfg, s, events[0]), events[1..], e);
    }
  }

  // ---- it returns promptly ----

  /** The step neither fails nor comes too late. */
  predicate Smooth(cfg: Config, a: Answer) {
    !a.raises && a.now.Some? && !cfg.TimedOut(a.now.value)
  }

  predicate AllSmooth(cfg: Config, events: seq<Event>) {
    forall i :: 0 <= i < |events| && events[i].Tick? ==> Smooth(cfg, events[i].answer)
  }

  /** The predicate holds now and after every event. */
  predicate StaysReady(cfg: Config, s: State, events: seq<Event>)
    decreases |events|
  {
    cfg.ready(s.buf) && (events != [] ==> StaysReady(cfg, Step(cfg, s, events[0]), events[1..]))
  }

  /** From when the predicate holds for good, whatever else is written, the waiter returns within three
      of its own steps, even if nothing but the monitor ever wakes it; and it returns True unless a
      step fails or times out. */
  lemma ReturnsPromptly(cfg: Config, buf: Buffer, before: seq<Event>, events: seq<Event>)
    requires Covered(cfg, buf)
    requires StaysReady(cfg, Run(cfg, Init(buf), before), events) && Ticks(events) >= 3
    ensures
      var s := Run(cfg, Init(buf), before);
      var r := Run(cfg, s, events);
      r.pc.Returned? && (!s.pc.Returned? && AllSmooth(cfg, events) ==> r.pc == Returned(True))
  {
    RunKeeps(cfg, Init(buf), before);
    Approaches(cfg, Run(cfg, Init(buf), before), events);
  }

  lemma {:induction false} Approaches(cfg: Config, s: State, events: seq<Event>)
    requires Awaited(cfg, s) && StaysReady(cfg, s, events) && Ticks(events) >= ToAnswer(s)
    ensures
      var r := Run(cfg, s, events);
      r.pc.Returned? && (NotBad(s) && AllSmooth(cfg, events) ==> r.pc == Returned(True))
    decreases |events|
  {
    if events != [] {
      StepKeeps(cfg, s, events[0]);
      Closer(cfg, s, events[0]);
      assert AllSmooth(cfg, events) ==> AllSmooth(cfg, events[1..]);
      Approaches(cfg, Step(cfg, s, events[0]), events[1..]);
    }
  }

  /** Steps to the next callback answer. */
  function ToAnswer(s: State): nat {
    match s.pc
    case CallFirst => 1
    case CallSecond => 1
    case Arm => 2
    case MWait => 2
    case Pause => 2
    case Clock => 3
    case Returned(_) => 0
  }

  ghost predicate Awaited(cfg: Config, s: State) {
    Inv(cfg, s) && Covered(cfg, s.buf) && cfg.ready(s.buf)
  }

  /** Not returned, or returned True. */
  predicate NotBad(s: State) {
    !s.pc.Returned? || s.pc == Returned(True)
  }

  lemma Closer(cfg: Config, s: State, e: Event)
    requires Awaited(cfg, s)
    ensures
      var s' := Step(cfg, s, e);
      && ToAnswer(s') <= ToAnswer(s) - (if e.Tick? && !s.pc.Returned? then 1 else 0)
      && (NotBad(s) && (e.Tick? ==> Smooth(cfg, e.answer)) ==> NotBad(s'))
  {
  }

  // ---- what the steps of a run were ----

  datatype Kind = AnsweredTrue | SampledLate | Failed | SampledEarly | Passed

  predicate Is(cfg: Config, s: State, e: Event, kind: Kind) {
    && e.Tick?
    && var calls := s.pc.CallFirst? || s.pc.CallSecond?;
       match kind
       case AnsweredTrue => calls && !e.answer.raises && cfg.ready(s.buf)
       case SampledLate => s.pc.Clock? && e.answer.now.Some? && cfg.TimedOut(e.answer.now.value)
       case SampledEarly => s.pc.Clock? && e.answer.now.Some? && !cfg.TimedOut(e.answer.now.value)
       case Failed => (calls && e.answer.raises) || (s.pc.Clock? && e.answer.now.None?)
       case Passed => !s.pc.Arm? && !s.pc.Pause? && Step(cfg, s, e).pc in {Arm, Pause}
  }

  /** How many steps of a run were of a kind. */
  function Count(cfg: Config, s: State, events: seq<Event>, kind: Kind): nat
    decreases |events|
  {
    if events == [] then 0
    else (if Is(cfg, s, events[0], kind) then 1 else 0) + Count(cfg, Step(cfg, s, events[0]), events[1..], kind)
  }

  /** The step that decides each outcome. */
  function Deciding(outcome: Outcome): Kind {
    match outcome
    case True => AnsweredTrue
    case False => SampledLate
    case Error => Failed
  }

  /** A returned waiter stays returned and does nothing more. */
  lemma {:induction false} ReturnedStays(cfg: Config, s: State, events: seq<Event>, kind: Kind)
    requires s.pc.Returned?
    ensures Run(cfg, s, events).pc == s.pc && Count(cfg, s, events, kind) == 0
    decreases |events|
  {
    if events != [] {
      ReturnedStays(cfg, Step(cfg, s, events[0]), events[1..], kind);
    }
  }

  /** The waiter returns an outcome exactly if the step that decides it happened, and that happens at
      most once: True after a callback answered true, False after a clock sample at or past the
      timeout, an error after the callback raised or the clock failed. */
  lemma {:induction false} OutcomeExactly(cfg: Config, s: State, events: seq<Event>, outcome: Outcome)
    requires !s.pc.Returned?
    ensures Count(cfg, s, events, Deciding(outcome)) == if Run(cfg, s, events).pc == Returned(outcome) then 1 else 0
    decreases |events|
  {
    if events != [] {
      var s' := Step(cfg, s, events[0]);
      if s'.pc.Returned? {
        ReturnedStays(cfg, s', events[1..], Deciding(outcome));
      } else {
        OutcomeExactly(cfg, s', events[1..], outcome);
      }
    }
  }

  /** Without a timeout the waiter never looks at the clock again, and never returns False. */
  lemma NoTimeoutNeverFalse(cfg: Config, buf: Buffer, events: seq<Event>)
    requires cfg.timeout <= 0.000000001
    ensures Run(cfg, Init(buf), events).pc != Returned(False)
  {
    NoClock(cfg, Init(buf), events);
  }

  lemma {:induction false} NoClock(cfg: Config, s: State, events: seq<Event>)
    requires !cfg.HaveTimeout() && Inv(cfg, s) && s.pc != Returned(False)
    ensures Run(cfg, s, events).pc != Returned(False)
    decreases |events|
  {
    if events != [] {
      StepKeeps(cfg, s, events[0]);
      NoClock(cfg, Step(cfg, s, events[0]), events[1..]);
    }
  }

  // ---- the clock is sampled every sixteen iterations ----

  /** How many multiples of 16 there are below x. */
  function MultiplesBelow(x: nat): nat {
    (x + 15) / 16
  }

  lemma MultiplesNext(x: nat)
    ensures MultiplesBelow(x + 1) == MultiplesBelow(x) + (if x % 16 == 0 then 1 else 0)
  {
  }

  lemma MultiplesShift(x: nat)
    ensures MultiplesBelow(x + WORD) == MultiplesBelow(x) + WORD / 16
  {
    assert x + WORD + 15 == x + 15 + 16 * 0x1000_0000;
  }

  /** How many of the n iterations from counter value `from` on are multiples of 16. */
  function Multiples(from: nat, n: nat): int {
    MultiplesBelow(from + n) - MultiplesBelow(from)
  }

  /** The 32-bit counter wraps at a multiple of 16. */
  lemma MultiplesStep(from: nat, n: nat)
    requires from < WORD && n > 0
    ensures Multiples(from, n) == (if from % 16 == 0 then 1 else 0) + Multiples((from + 1) % WORD, n - 1)
  {
    MultiplesNext(from);
    if from + 1 == WORD {
      MultiplesShift(n - 1);
      MultiplesShift(0);
    } else {
      assert (from + 1) % WORD == from + 1;
    }
  }

  /** The iterations that pass with a sample are those at a multiple of 16. */
  lemma PassedStep(cfg: Config, s: State, e: Event)
    requires cfg.HaveTimeout() && Inv(cfg, s)
    ensures Is(cfg, s, e, SampledEarly) <==> Is(cfg, s, e, Passed) && s.iteration % 16 == 0
    ensures Step(cfg, s, e).iteration == if Is(cfg, s, e, Passed) then (s.iteration + 1) % WORD else s.iteration
  {
  }

  /** With a timeout set, the clock samples before the timeout in any stretch of any run are exactly
      the multiples of 16 among the iterations of the stretch, also where the counter wraps. */
  lemma {:induction false} SamplesExactly(cfg: Config, s: State, events: seq<Event>)
    requires cfg.HaveTimeout() && Inv(cfg, s)
    ensures Count(cfg, s, events, SampledEarly) == Multiples(s.iteration, Count(cfg, s, events, Passed))
    decreases |events|
  {
    if events != [] {
      StepKeeps(cfg, s, events[0]);
      PassedStep(cfg, s, events[0]);
      SamplesExactly(cfg, Step(cfg, s, events[0]), events[1..]);
      if Is(cfg, s, events[0], Passed) {
        MultiplesStep(s.iteration, Count(cfg, s, events, Passed));
      }
    }
  }

  /** At least one sample in any sixteen iterations of any run. */
  lemma SampledEverySixteen(cfg: Config, buf: Buffer, before: seq<Event>, events: seq<Event>)
    requires cfg.timeout > 0.000000001
    ensures
      var s := Run(cfg, Init(buf), before);
      var passed, sampled := Count(cfg, s, events, Passed), Count(cfg, s, events, SampledEarly);
      passed / 16 <= sampled <= (passed + 15) / 16
  {
    RunKeeps(cfg, Init(buf), before);
    SamplesExactly(cfg, Run(cfg, Init(buf), before), events);
  }

  // ---- it does not outlast its timeout ----

  /** Every clock sample from here on is at or past the timeout, or fails, and every wait ends. */
  ghost predicate Overdue(cfg: Config, events: seq<Event>)
    requires IsReading(cfg.start)
  {
    forall i :: 0 <= i < |events| && events[i].Tick? ==>
      && events[i].answer.wakes
      && (events[i].answer.now.Some? ==> PastTimeout(cfg, events[i].answer.now.value))
  }

  /** So many nanoseconds after the start that the timeout has passed. */
  ghost predicate PastTimeout(cfg: Config, now: Timespec)
    requires IsReading(cfg.start)
  {
    exists d: int :: now == Later(cfg.start, d) && d as real * 0.000000001 >= cfg.timeout
  }

  /** The same, as the loop decides it. */
  predicate SampledPast(cfg: Config, events: seq<Event>) {
    forall i :: 0 <= i < |events| && events[i].Tick? ==>
      && events[i].answer.wakes
      && (events[i].answer.now.Some? ==> cfg.TimedOut(events[i].answer.now.value))
  }

  function Ticks(events: seq<Event>): nat {
    if events == [] then 0 else (if events[0].Tick? then 1 else 0) + Ticks(events[1..])
  }

  /** Iterations before the next one that samples the clock. */
  function ToSample(iteration: nat): nat {
    if iteration % 16 == 0 then 0 else 16 - iteration % 16
  }

  lemma ToSampleStep(iteration: nat)
    requires iteration < WORD
    ensures iteration % 16 == 0 <==> ToSample(iteration) == 0
    ensures iteration % 16 != 0 ==> ToSample((iteration + 1) % WORD) == ToSample(iteration) - 1
  {
    if iteration + 1 == WORD {
      assert iteration == 16 * 0xFFF_FFFF + 15;
    } else {
      assert (iteration + 1) % WORD == iteration + 1;
      assert iteration == 16 * (iteration / 16) + iteration % 16;
    }
  }

  /** A bound on the steps left: five for each iteration before the next sample. */
  function StepsLeft(s: State): nat {
    var iterations := ToSample(s.iteration);
    match s.pc
    case CallFirst => 5 * iterations + 2
    case Clock => 1
    case Arm => 5 * iterations + 5
    case CallSecond => 5 * iterations + 4
    case MWait => 5 * iterations + 3
    case Pause => 5 * iterations + 3
    case Returned(_) => 0
  }

  /** Once the timeout has passed, the waiter returns within eighty of its own steps, whatever is
      written meanwhile. */
  lemma ReturnsAfterTimeout(cfg: Config, buf: Buffer, before: seq<Event>, events: seq<Event>)
    requires cfg.timeout > 0.000000001 && IsReading(cfg.start) && Overdue(cfg, events) && Ticks(events) >= 80
    ensures Run(cfg, Run(cfg, Init(buf), before), events).pc.Returned?
  {
    RunKeeps(cfg, Init(buf), before);
    forall i | 0 <= i < |events| && events[i].Tick? && events[i].answer.now.Some?
      ensures cfg.TimedOut(events[i].answer.now.value)
    {
      var d: int :| events[i].answer.now.value == Later(cfg.start, d) && d as real * 0.000000001 >= cfg.timeout;
      TimedOutExactly(cfg, d);
    }
    Exhausted(cfg, Run(cfg, Init(buf), before), events);
  }

  lemma {:induction false} Exhausted(cfg: Config, s: State, events: seq<Event>)
    requires cfg.HaveTimeout() && Inv(cfg, s) && SampledPast(cfg, events) && Ticks(events) >= StepsLeft(s)
    ensures Run(cfg, s, events).pc.Returned?
    decreases |events|
  {
    if events != [] {
      var s' := Step(cfg, s, events[0]);
      StepKeeps(cfg, s, events[0]);
      StepsDecrease(cfg, s, events[0]);
      Exhausted(cfg, s', events[1..]);
    }
  }

  lemma StepsDecrease(cfg: Config, s: State, e: Event)
    requires cfg.HaveTimeout() && Inv(cfg, s) && SampledPast(cfg, [e])
    ensures StepsLeft(Step(cfg, s, e)) <= StepsLeft(s) - (if e.Tick? && !s.pc.Returned? then 1 else 0)
  {
    assert e == [e][0];
    ToSampleStep(s.iteration);
  }

  // ---- the loop itself ----

  /** How a part of the loop ends. `Ended`: the script of events is used up. */
  datatype Flow = Continue | Return(outcome: Outcome) | Ended

  /** The shared buffer and the monitor, and the events to come. */
  class Machine {
    var buf: Buffer
    var armed: bool
    var triggered: bool
    var script: seq<Event>

    constructor (buf: Buffer, script: seq<Event>)
      ensures this.script == script && View(CallFirst, 0) == Init(buf)
    {
      this.buf, this.script := buf, script;
      armed, triggered := false, false;
    }

    ghost function View(pc: Pc, iteration: nat): State
      reads this
    {
      State(pc, iteration, buf, armed, triggered)
    }

    /** Where the events to come lead. */
    ghost function Verdict(cfg: Config, pc: Pc, iteration: nat): Pc
      reads this
    {
      Run(cfg, View(pc, iteration), script).pc
    }

    /** The writes that come before the waiter's next step, and what that step finds. */
    method Next(cfg: Config, ghost pc: Pc, ghost iteration: nat) returns (a: Option<Answer>)
      modifies this
      ensures |buf| == |old(buf)|
      ensures a.None? ==> script == [] && old(Verdict(cfg, pc, iteration)) == pc
      ensures a.Some? ==>
        && |script| < |old(script)|
        && Run(cfg, WaiterStep(cfg, View(pc, iteration), a.value), script).pc == old(Verdict(cfg, pc, iteration))
    {
      while script != []
        invariant |buf| == |old(buf)| && |script| <= |old(script)|
        invariant Verdict(cfg, pc, iteration) == old(Verdict(cfg, pc, iteration))
        decreases |script|
      {
        var e := script[0];
        script := script[1..];
        match e
        case Tick(answer) =>
          return Some(answer);
        case Write(at, value) =>
          if at < |buf| {
            buf := buf[at := value];
            triggered := triggered || (armed && cfg.Watches(at));
          }
      }
      return None;
    }

    /** A call of the callback, at the start of an iteration or after arming the monitor. */
    method Call(cfg: Config, ghost pc: Pc, ghost iteration: nat) returns (flow: Flow)
      requires pc.CallFirst? || pc.CallSecond?
      modifies this
      ensures |buf| == |old(buf)| && |script| <= |old(script)|
      ensures flow.Return? ==> old(Verdict(cfg, pc, iteration)) == Returned(flow.outcome)
      ensures flow.Ended? ==> old(Verdict(cfg, pc, iteration)) == pc
      ensures flow.Continue? ==>
        && |script| < |old(script)|
        && Run(cfg, Unready(cfg, View(pc, iteration)), script).pc == old(Verdict(cfg, pc, iteration))
    {
      var a := Next(cfg, pc, iteration);
      if a.None? {
        return Ended;
      }
      ghost var s := WaiterStep(cfg, View(pc, iteration), a.value);
      if a.value.raises || cfg.ready(buf) {
        ReturnedStays(cfg, s, script, Passed);
        return Return(if a.value.raises then Error else True);
      }
      return Continue;
    }

    /** The clock sample of every sixteenth iteration. */
    method Sample(cfg: Config, ghost iteration: nat) returns (flow: Flow)
      modifies this
      ensures |buf| == |old(buf)| && |script| <= |old(script)|
      ensures flow.Return? ==> old(Verdict(cfg, Clock, iteration)) == Returned(flow.outcome)
      ensures flow.Ended? ==> old(Verdict(cfg, Clock, iteration)) == Clock
      ensures flow.Continue? ==> Run(cfg, Pass(cfg, View(Clock, iteration)), script).pc == old(Verdict(cfg, Clock, iteration))
    {
      var a := Next(cfg, Clock, iteration);
      if a.None? {
        return Ended;
      }
      ghost var s := WaiterStep(cfg, View(Clock, iteration), a.value);
      if a.value.now.None? || cfg.TimedOut(a.value.now.value) {
        ReturnedStays(cfg, s, script, Passed);
        return Return(if a.value.now.None? then Error else False);
      }
      return Continue;
    }

    /** Arming the monitor, the second look, and the wait. */
    method ArmAndWait(cfg: Config, ghost iteration: nat) returns (flow: Flow)
      modifies this
      ensures |buf| == |old(buf)| && |script| <= |old(script)|
      ensures flow.Return? ==> old(Verdict(cfg, Arm, iteration)) == Returned(flow.outcome)
      ensures flow.Ended? ==> !old(Verdict(cfg, Arm, iteration)).Returned?
      ensures flow.Continue? ==> Verdict(cfg, CallFirst, iteration) == old(Verdict(cfg, Arm, iteration))
    {
      var a := Next(cfg, Arm, iteration);
      if a.None? {
        return Ended;
      }
      armed, triggered := true, false;
      flow := Call(cfg, CallSecond, iteration);
      if flow.Continue? {
        flow := Wait(cfg, iteration);
      }
    }

    /** The wait: it ends when the monitor is triggered or the processor wakes for another reason. */
    method Wait(cfg: Config, ghost iteration: nat) returns (flow: Flow)
      modifies this
      ensures |buf| == |old(buf)| && |script| <= |old(script)|
      ensures flow == Ended || flow == Continue
      ensures flow.Ended? ==> old(Verdict(cfg, MWait, iteration)) == MWait
      ensures flow.Continue? ==> Verdict(cfg, CallFirst, iteration) == old(Verdict(cfg, MWait, iteration))
    {
      var asleep := true;
      while asleep
        invariant |buf| == |old(buf)| && |script| <= |old(script)|
        invariant Verdict(cfg, if asleep then MWait else CallFirst, iteration) == old(Verdict(cfg, MWait, iteration))
        decreases asleep, |script|
      {
        var a := Next(cfg, MWait, iteration);
        if a.None? {
          return Ended;
        }
        if triggered || a.value.wakes {
          armed, asleep := false, false;
        }
      }
      return Continue;
    }

    /** The polling part of an iteration: the callback and, every sixteenth time, the clock. */
    method Poll(cfg: Config, iteration: nat) returns (flow: Flow)
      modifies this
      ensures |buf| == |old(buf)| && |script| <= |old(script)|
      ensures flow.Return? ==> old(Verdict(cfg, CallFirst, iteration)) == Returned(flow.outcome)
      ensures flow.Ended? ==> !old(Verdict(cfg, CallFirst, iteration)).Returned?
      ensures flow.Continue? ==>
        && |script| < |old(script)|
        && Verdict(cfg, if cfg.UsesMonitor(buf) then Arm else Pause, (iteration + 1) % WORD)
           == old(Verdict(cfg, CallFirst, iteration))
    {
      flow := Call(cfg, CallFirst, iteration);
      if flow.Continue? && cfg.HaveTimeout() && iteration % 16 == 0 {
        flow := Sample(cfg, iteration);
      }
    }

    /** The pause between two polls where there is no monitor. */
    method Relax(cfg: Config, ghost iteration: nat) returns (flow: Flow)
      modifies this
      ensures |buf| == |old(buf)| && |script| <= |old(script)|
      ensures flow == Ended || flow == Continue
      ensures flow.Ended? ==> old(Verdict(cfg, Pause, iteration)) == Pause
      ensures flow.Continue? ==> Verdict(cfg, CallFirst, iteration) == old(Verdict(cfg, Pause, iteration))
    {
      var a := Next(cfg, Pause, iteration);
      return if a.None? then Ended else Continue;
    }

    /** The loop. It returns what the protocol returns, for every script of writes and answers, and
        does not return only if the script ends first. */
    method Spin(cfg: Config) returns (flow: Flow)
      requires View(CallFirst, 0) == Init(buf)
      modifies this
      ensures flow.Return? <==> Run(cfg, Init(old(buf)), old(script)).pc.Returned?
      ensures flow.Return? ==> Run(cfg, Init(old(buf)), old(script)).pc == Returned(flow.outcome)
    {
      var iteration: nat := 0;
      var monitored := |buf| <= cfg.maxLine && cfg.monitorx;
      flow := Continue;
      while flow.Continue?
        invariant |buf| == |old(buf)|
        invariant flow.Continue? ==> Verdict(cfg, CallFirst, iteration) == old(Verdict(cfg, CallFirst, 0))
        invariant flow.Return? ==> old(Verdict(cfg, CallFirst, 0)) == Returned(flow.outcome)
        invariant flow.Ended? ==> !old(Verdict(cfg, CallFirst, 0)).Returned?
        decreases |script|, flow.Continue?
      {
        flow := Poll(cfg, iteration);
        if flow.Continue? {
          iteration := (iteration + 1) % WORD;
          if monitored {
            flow := ArmAndWait(cfg, iteration);
          } else {
            flow := Relax(cfg, iteration);
          }
        }
      }
    }
  }
}
