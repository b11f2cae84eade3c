/** The APU frame counter and its reset through $4017. */
module ApuFrameCounter {
  import opened Bits
  import opened CpuTypes

  const STEP_1 := 3728
  const STEP_2 := 7456
  const STEP_3 := 11185
  const STEP_4 := 14914
  const STEP_5 := 18640
  const WRAP := 0x10000

  datatype Signal = HalfFrame | QuarterFrame

  datatype State = State(externalSync: bool, frameInterrupt: bool, interruptInhibit: bool, apu: nat, cpu: nat, resetAt: Option<nat>)

  /** The last step of the sequence. */
  function LastStep(externalSync: bool): nat {
    if externalSync then STEP_5 else STEP_4
  }

  /** The CPU clocks in one round of the sequence. */
  function Period(externalSync: bool): nat {
    2 * (LastStep(externalSync) + 1)
  }

  // --- one clock

  /** The clocks from the counter to the reset. */
  function Left(s: State): nat
    requires s.resetAt.Some?
  {
    (s.resetAt.value - s.cpu) % WRAP
  }

  function Counted(s: State): State {
    var cpu := (s.cpu + 1) % WRAP;
    if s.resetAt == Some(cpu) then s.(apu := 0, cpu := 0, resetAt := None) else s.(cpu := cpu)
  }

  function SignalAt(apu: nat, externalSync: bool): Option<Signal> {
    if apu == STEP_1 || apu == STEP_3 then Some(QuarterFrame)
    else if apu == STEP_2 || apu == STEP_5 then Some(HalfFrame)
    else if apu == STEP_4 && !externalSync then Some(HalfFrame)
    else None
  }

  function Proper(s: State): State {
    s.(apu := (s.apu + 1) % WRAP)
  }

  predicate RaisesInterrupt(s: State) {
    !s.externalSync && !s.interruptInhibit && STEP_4 - 1 <= s.apu <= STEP_4 + 1
  }

  /** The reset that is pending at a wrap counts from the wrap; sums and differences have sixteen bits. */
  function Improper(s: State): State {
    var i := s.(frameInterrupt := s.frameInterrupt || RaisesInterrupt(s));
    if s.apu == LastStep(s.externalSync) + 1 then
      i.(apu := 0, cpu := 0, resetAt := if s.resetAt.Some? then Some(Left(s)) else None)
    else i
  }

  function Clocked(s: State, proper: bool): State {
    if proper then Proper(Counted(s)) else Improper(Counted(s))
  }

  function ClockSignal(s: State, proper: bool): Option<Signal> {
    if proper then SignalAt(Proper(Counted(s)).apu, s.externalSync) else None
  }

  /** A write to $4017. */
  function Configured(s: State, sync: bool, inhibit: bool): State {
    s.(externalSync := sync, resetAt := Some((s.cpu + 3) % WRAP), interruptInhibit := inhibit,
       frameInterrupt := s.frameInterrupt && !inhibit)
  }

  // --- a pending reset is one to three clocks ahead

  /** Sixteen-bit counters, and a pending reset that lies ahead of them. */
  predicate Ahead(s: State) {
    && s.apu < WRAP && s.cpu < WRAP
    && (s.resetAt.Some? ==> s.resetAt.value < WRAP && 1 <= Left(s) <= 3)
  }

  lemma CountedLeft(s: State)
    requires Ahead(s) && s.resetAt.Some?
    ensures Left(s) == 1 ==> Counted(s) == s.(apu := 0, cpu := 0, resetAt := None)
    ensures Left(s) > 1 ==> Counted(s) == s.(cpu := (s.cpu + 1) % WRAP) && Left(Counted(s)) == Left(s) - 1
  {
    var n := (s.cpu + 1) % WRAP;
    assert n == if s.cpu + 1 == WRAP then 0 else s.cpu + 1;
    var d := s.resetAt.value - s.cpu;
    assert Left(s) == if d < 0 then d + WRAP else d;
  }

  lemma ImproperLeft(s: State)
    requires Ahead(s) && s.resetAt.Some?
    ensures Improper(s).resetAt.Some? && Left(Improper(s)) == Left(s)
  {
  }

  lemma ProperLeft(s: State)
    requires s.resetAt.Some?
    ensures Left(Proper(s)) == Left(s) && Proper(s).apu < WRAP
  {
  }

  /** However the writes are spaced, each is carried out by the reset three clocks after the last of them. */
  lemma ClockAhead(s: State, proper: bool)
    requires Ahead(s)
    ensures Ahead(Clocked(s, proper))
    ensures s.resetAt.None? ==> Clocked(s, proper).resetAt.None?
    ensures s.resetAt.Some? && Left(s) == 1 ==> Clocked(s, proper).resetAt.None?
    ensures s.resetAt.Some? && Left(s) > 1 ==> Clocked(s, proper).resetAt.Some? && Left(Clocked(s, proper)) == Left(s) - 1
  {
    hide Counted, Left;
    if s.resetAt.Some? {
      CountedLeft(s);
      if Left(s) > 1 {
        ImproperLeft(Counted(s));
        ProperLeft(Counted(s));
      }
    } else {
      CountedIdle(s);
    }
  }

  lemma CountedIdle(s: State)
    requires s.resetAt.None?
    ensures Counted(s) == s.(cpu := (s.cpu + 1) % WRAP)
  {
  }

  lemma ConfiguredLeft(s: State, sync: bool, inhibit: bool)
    requires s.cpu < WRAP
    ensures var c := Configured(s, sync, inhibit); c.resetAt.Some? && c.resetAt.value < WRAP && Left(c) == 3
  {
    var r := (s.cpu + 3) % WRAP;
    assert r == if s.cpu + 3 < WRAP then s.cpu + 3 else s.cpu + 3 - WRAP;
  }

  /** Three clocks below its width the counter neither overflows at a write nor underflows at a wrap. */
  lemma ArithmeticFits(s: State)
    requires Ahead(s) && s.cpu + 3 < WRAP
    ensures (s.cpu + 3) % WRAP == s.cpu + 3
    ensures Counted(s).resetAt.Some? ==> Counted(s).resetAt.value > Counted(s).cpu
  {
    hide Counted;
    if s.resetAt.Some? {
      CountedLeft(s);
    } else {
      CountedIdle(s);
    }
  }

  // --- runs

  datatype Event = Tick | Write(sync: bool, inhibit: bool)

  datatype Phased = Phased(state: State, proper: bool)

  function After(p: Phased, e: Event): Phased {
    match e
    case Tick => Phased(Clocked(p.state, p.proper), !p.proper)
    case Write(sync, inhibit) => p.(state := Configured(p.state, sync, inhibit))
  }

  function AfterAll(p: Phased, es: seq<Event>): Phased {
    if es == [] then p else After(AfterAll(p, es[..|es| - 1]), es[|es| - 1])
  }

  const POWER_ON := Phased(State(false, false, false, 0, 0, None), true)

  /** The clocks since the last write, three if there were at least that many or no write at all. */
  function SinceWrite(es: seq<Event>): (n: nat)
    ensures n <= 3
  {
    if es == [] then 3
    else if es[|es| - 1].Write? then 0
    else
      var n := SinceWrite(es[..|es| - 1]);
      if n == 3 then 3 else n + 1
  }

  /** The clocks for which writes have kept a reset pending without a break. */
  function Stretch(es: seq<Event>): nat {
    if es == [] then 0
    else
      var before := es[..|es| - 1];
      if es[|es| - 1].Write? then Stretch(before)
      else if SinceWrite(before) >= 2 then 0
      else Stretch(before) + 1
  }

  // --- how far the counters run

  /** Between clocks: `proper` says which kind of clock comes next. */
  predicate Level(s: State, proper: bool, since: nat, stretch: nat) {
    && Ahead(s)
    && if since >= 3 then
         && s.resetAt.None? && stretch == 0
         && s.apu <= LastStep(s.externalSync) + (if proper then 0 else 1)
         && s.cpu <= 2 * s.apu - (if proper then 0 else 1)
       else
         && s.resetAt.Some? && Left(s) == 3 - since
         && 2 * s.apu <= 2 * STEP_5 + stretch + (if proper then 1 else 2)
         && s.cpu <= 2 * STEP_5 + 1 + stretch
  }

  lemma IdleLevel(s: State, proper: bool)
    requires Level(s, proper, 3, 0)
    ensures Level(Clocked(s, proper), !proper, 3, 0)
  {
    hide Counted, Proper, Left;
    CountedIdle(s);
    SmallCounters(s);
    SmallCounters(Counted(s));
  }

  lemma PendingLevel(s: State, proper: bool, since: nat, stretch: nat)
    requires since < 2 && Level(s, proper, since, stretch)
    ensures Level(Clocked(s, proper), !proper, since + 1, stretch + 1)
  {
    hide Counted, Proper, Left;
    ClockAhead(s, proper);
    CountedLeft(s);
    WrapsDown(s);
    WrapsDown(Counted(s));
  }

  lemma ResetLevel(s: State, proper: bool, stretch: nat)
    requires Level(s, proper, 2, stretch)
    ensures Level(Clocked(s, proper), !proper, 3, 0)
  {
    hide Counted, Left;
    CountedLeft(s);
  }

  lemma WriteLevel(s: State, proper: bool, since: nat, stretch: nat, sync: bool, inhibit: bool)
    requires since <= 3 && Level(s, proper, since, stretch)
    ensures Level(Configured(s, sync, inhibit), proper, 0, stretch)
  {
    hide Left;
    ConfiguredLeft(s, sync, inhibit);
  }

  lemma SmallCounters(s: State)
    ensures s.cpu + 1 < WRAP ==> (s.cpu + 1) % WRAP == s.cpu + 1
    ensures s.apu + 1 < WRAP ==> Proper(s) == s.(apu := s.apu + 1)
  {
  }

  /** A sixteen-bit increment is no more than an increment. */
  lemma WrapsDown(s: State)
    ensures (s.cpu + 1) % WRAP <= s.cpu + 1
    ensures Proper(s).apu <= s.apu + 1 && Proper(s) == s.(apu := Proper(s).apu)
  {
  }

  lemma {:induction false} LevelAt(es: seq<Event>)
    ensures var p := AfterAll(POWER_ON, es); Level(p.state, p.proper, SinceWrite(es), Stretch(es))
    decreases |es|
  {
    hide Clocked, Configured, Level;
    if es == [] {
      LevelStarts();
    } else {
      var most := es[..|es| - 1];
      LevelAt(most);
      var p := AfterAll(POWER_ON, most);
      match es[|es| - 1] {
        case Tick =>
          if SinceWrite(most) == 3 {
            LevelIdle(p.state, p.proper, Stretch(most));
            IdleLevel(p.state, p.proper);
          } else if SinceWrite(most) == 2 {
            ResetLevel(p.state, p.proper, Stretch(most));
          } else {
            PendingLevel(p.state, p.proper, SinceWrite(most), Stretch(most));
          }
        case Write(sync, inhibit) =>
          WriteLevel(p.state, p.proper, SinceWrite(most), Stretch(most), sync, inhibit);
      }
    }
  }

  lemma LevelStarts()
    ensures Level(POWER_ON.state, POWER_ON.proper, 3, 0)
  {
  }

  lemma LevelIdle(s: State, proper: bool, stretch: nat)
    requires Level(s, proper, 3, stretch)
    ensures stretch == 0
  {
  }

  /**
   Whatever the clocks and writes from power-on: a reset is pending exactly for three clocks after a write,
   and the counters are bounded by the sequence and the clocks for which one has been pending.
   */
  lemma CountersBounded(es: seq<Event>)
    ensures var s := AfterAll(POWER_ON, es).state;
      && (s.resetAt.Some? <==> SinceWrite(es) < 3)
      && s.apu <= STEP_5 + 1 + Stretch(es) / 2 && s.cpu <= 2 * STEP_5 + 1 + Stretch(es)
  {
    hide AfterAll, SinceWrite, Stretch, Left;
    LevelAt(es);
    LevelMeans(AfterAll(POWER_ON, es).state, AfterAll(POWER_ON, es).proper, SinceWrite(es), Stretch(es));
  }

  lemma LevelMeans(s: State, proper: bool, since: nat, stretch: nat)
    requires since <= 3 && Level(s, proper, since, stretch)
    ensures s.resetAt.Some? <==> since < 3
    ensures s.apu <= STEP_5 + 1 + stretch / 2 && s.cpu <= 2 * STEP_5 + 1 + stretch && Ahead(s)
  {
    hide Left;
  }

  // --- the bound is reached

  lemma AfterOne(p: Phased, es: seq<Event>, e: Event)
    ensures AfterAll(p, es + [e]) == After(AfterAll(p, es), e)
    ensures SinceWrite(es + [e]) == if e.Write? then 0 else if SinceWrite(es) == 3 then 3 else SinceWrite(es) + 1
    ensures Stretch(es + [e]) == if e.Write? then Stretch(es) else if SinceWrite(es) >= 2 then 0 else Stretch(es) + 1
  {
    hide After;
    assert (es + [e])[..|es|] == es;
  }

  lemma {:induction false} AfterJoin(p: Phased, a: seq<Event>, b: seq<Event>)
    ensures AfterAll(p, a + b) == AfterAll(AfterAll(p, a), b)
    decreases |b|
  {
    hide After;
    if b == [] {
      assert a + b == a;
    } else {
      var most := b[..|b| - 1];
      AfterJoin(p, a, most);
      assert (a + b)[..|a + b| - 1] == a + most;
    }
  }

  /** A write in the last step of the five-step sequence that switches to the four-step one, and a write on every clock. */
  function Switched(): seq<Event> {
    [Tick] + [Event.Write(true, false)] + Ticks(3) + Ticks(2 * STEP_5 + 1) + [Event.Write(false, false)]
  }

  function Postponing(n: nat): seq<Event> {
    if n == 0 then Switched() else Postponing(n - 1) + [Tick] + [Event.Write(false, false)]
  }

  lemma FirstClocks()
    ensures var p := After(After(After(After(After(POWER_ON, Tick), Event.Write(true, false)), Tick), Tick), Tick);
      RoundStart(p) && p.state.externalSync
  {
    var one := After(POWER_ON, Tick);
    assert one == Phased(State(false, false, false, 1, 1, None), false);
    var two := After(one, Event.Write(true, false));
    assert two == Phased(State(true, false, false, 1, 1, Some(4)), false);
    assert After(two, Tick) == Phased(State(true, false, false, 1, 2, Some(4)), true);
    assert After(After(two, Tick), Tick) == Phased(State(true, false, false, 2, 3, Some(4)), false);
  }

  /** The five-step sequence starts a round four clocks after power-on if a write follows the first. */
  lemma FiveStepRound()
    ensures var p := AfterAll(POWER_ON, [Tick] + [Event.Write(true, false)] + Ticks(3)); RoundStart(p) && p.state.externalSync
  {
    hide After, AfterAll, SinceWrite, Stretch, RoundStart;
    FirstClocks();
    var es := [Tick] + [Event.Write(true, false)];
    assert [Tick] == [] + [Tick];
    assert AfterAll(POWER_ON, []) == POWER_ON by { NothingAfter(POWER_ON); }
    AfterOne(POWER_ON, [], Tick);
    AfterOne(POWER_ON, [Tick], Event.Write(true, false));
    assert es + Ticks(3) == es + [Tick] + [Tick] + [Tick];
    AfterOne(POWER_ON, es, Tick);
    AfterOne(POWER_ON, es + [Tick], Tick);
    AfterOne(POWER_ON, es + [Tick] + [Tick], Tick);
  }

  lemma NothingAfter(p: Phased)
    ensures AfterAll(p, []) == p
  {
  }

  lemma SwitchReached()
    ensures var p := AfterAll(POWER_ON, Switched());
      && p.state.cpu == 2 * STEP_5 + 1 && p.state.apu == STEP_5 + 1 && !p.state.externalSync
      && SinceWrite(Switched()) == 0 && Stretch(Switched()) == 0
  {
    hide After, AfterAll, SinceWrite, Stretch, Inside, Quarters, Halves, QuartersPassed, HalvesPassed, Ticks, RoundStart;
    var head := [Tick] + [Event.Write(true, false)] + Ticks(3);
    FiveStepRound();
    var q := AfterAll(POWER_ON, head);
    InsideRound(q, 2 * STEP_5 + 1);
    var es := head + Ticks(2 * STEP_5 + 1);
    AfterJoin(POWER_ON, head, Ticks(2 * STEP_5 + 1));
    AfterOne(POWER_ON, es, Event.Write(false, false));
    LevelAt(es);
    SwitchAt(AfterAll(POWER_ON, es), SinceWrite(es), Stretch(es));
  }

  lemma SwitchAt(q: Phased, since: nat, stretch: nat)
    requires Inside(q, 2 * STEP_5 + 1, true) && Level(q.state, q.proper, since, stretch)
    ensures since >= 3 && stretch == 0
    ensures var p := After(q, Event.Write(false, false));
      p.state.cpu == 2 * STEP_5 + 1 && p.state.apu == STEP_5 + 1 && !p.state.externalSync
  {
  }

  lemma PostponedOnce(p: Phased)
    requires Ahead(p.state) && p.state.resetAt.Some? && Left(p.state) == 3
    requires !p.state.externalSync && p.state.apu > STEP_4 + 1 && p.state.cpu + 1 < WRAP && p.state.apu + 1 < WRAP
    ensures var q := After(After(p, Tick), Event.Write(false, false));
      q.state.cpu == p.state.cpu + 1 && q.state.apu >= p.state.apu && !q.state.externalSync
  {
    hide Counted, Proper, Left;
    CountedLeft(p.state);
    SmallCounters(p.state);
    SmallCounters(Counted(p.state));
  }

  /** From power-on, writes can keep a reset pending for `n` clocks and drive the counter exactly that far. */
  lemma {:induction false} PostponingReaches(n: nat)
    requires 2 * STEP_5 + 1 + n < WRAP
    ensures var p := AfterAll(POWER_ON, Postponing(n));
      && p.state.cpu == 2 * STEP_5 + 1 + n && p.state.apu > STEP_4 + 1 && !p.state.externalSync
      && SinceWrite(Postponing(n)) == 0 && Stretch(Postponing(n)) == n
    decreases n
  {
    hide After, AfterAll, SinceWrite, Stretch, Switched, Left;
    if n == 0 {
      SwitchReached();
    } else {
      PostponingReaches(n - 1);
      var es := Postponing(n - 1);
      var p := AfterAll(POWER_ON, es);
      LevelAt(es);
      LevelMeans(p.state, p.proper, 0, n - 1);
      PostponedOnce(p);
      AfterOne(POWER_ON, es, Tick);
      AfterOne(POWER_ON, es + [Tick], Event.Write(false, false));
    }
  }

  /**
   The exact reach of the counter: it stays at or below `limit` in every run that keeps no reset pending for
   more than `n` clocks if and only if the five-step sequence and `n` clocks fit below.
   */
  lemma CounterReach(n: nat, limit: nat)
    requires limit + 1 < WRAP
    ensures (forall es :: Stretch(es) <= n ==> AfterAll(POWER_ON, es).state.cpu <= limit) <==> 2 * STEP_5 + 1 + n <= limit
  {
    hide AfterAll, Stretch, Postponing;
    if 2 * STEP_5 + 1 + n <= limit {
      forall es | Stretch(es) <= n
        ensures AfterAll(POWER_ON, es).state.cpu <= limit
      {
        CountersBounded(es);
      }
    } else {
      var m := if limit < 2 * STEP_5 + 1 then 0 else limit - 2 * STEP_5;
      PostponingReaches(m);
      assert Stretch(Postponing(m)) <= n && AfterAll(POWER_ON, Postponing(m)).state.cpu > limit;
    }
  }

  /** No sixteen-bit sum overflows, and no difference underflows, until a reset was pending for 28252 clocks. */
  lemma NothingOverflows(es: seq<Event>)
    requires Stretch(es) < 28252
    ensures var s := AfterAll(POWER_ON, es).state;
      s.cpu + 3 < WRAP && (Counted(s).resetAt.Some? ==> Counted(s).resetAt.value > Counted(s).cpu)
  {
    hide AfterAll, Stretch, SinceWrite, Counted;
    CountersBounded(es);
    LevelAt(es);
    LevelMeans(AfterAll(POWER_ON, es).state, AfterAll(POWER_ON, es).proper, SinceWrite(es), Stretch(es));
    ArithmeticFits(AfterAll(POWER_ON, es).state);
  }

  // --- the writes a program makes

  /** The last write came one clock after another one, as the two of a read-modify-write do. */
  predicate Second(es: seq<Event>) {
    if es == [] then false
    else
      var before := es[..|es| - 1];
      if es[|es| - 1].Write? then SinceWrite(before) == 1 else Second(before)
  }

  /** Writes are three clocks apart, but that one may follow another after a single clock. */
  predicate Paired(es: seq<Event>) {
    forall i {:trigger es[i]} :: 0 <= i < |es| && es[i].Write? ==>
      SinceWrite(es[..i]) == 3 || (SinceWrite(es[..i]) == 1 && !Second(es[..i]))
  }

  lemma PairedPrefix(es: seq<Event>)
    requires Paired(es) && es != []
    ensures var before := es[..|es| - 1];
      Paired(before) && (es[|es| - 1].Write? ==> SinceWrite(before) == 3 || (SinceWrite(before) == 1 && !Second(before)))
  {
    hide SinceWrite, Second;
    var before := es[..|es| - 1];
    forall i {:trigger before[i]} | 0 <= i < |before| && before[i].Write?
      ensures SinceWrite(before[..i]) == 3 || (SinceWrite(before[..i]) == 1 && !Second(before[..i]))
    {
      assert es[i] == before[i] && es[..i] == before[..i];
    }
  }

  lemma {:induction false} PairedStretch(es: seq<Event>)
    requires Paired(es)
    ensures Stretch(es) == if SinceWrite(es) == 3 then 0 else SinceWrite(es) + if Second(es) then 1 else 0
    decreases |es|
  {
    hide Paired;
    if es != [] {
      PairedPrefix(es);
      PairedStretch(es[..|es| - 1]);
    }
  }

  /** With such writes the counters never come near their width. */
  lemma PairedBounded(es: seq<Event>)
    requires Paired(es)
    ensures var s := AfterAll(POWER_ON, es).state; s.apu <= STEP_5 + 2 && s.cpu <= 2 * STEP_5 + 4
  {
    hide AfterAll, Stretch, SinceWrite, Second, Paired;
    PairedStretch(es);
    CountersBounded(es);
  }

  // --- the schedule

  function Ticks(n: nat): seq<Event> { seq(n, _ => Tick) }

  /** The signals of the `n`-th clocks on. */
  function Signals(p: Phased, n: nat): seq<Option<Signal>> {
    if n == 0 then []
    else
      var q := AfterAll(p, Ticks(n - 1));
      Signals(p, n - 1) + [ClockSignal(q.state, q.proper)]
  }

  /** Quarter-frame clocks, of which half-frame clocks are some. */
  function Quarters(signals: seq<Option<Signal>>): nat {
    if signals == [] then 0
    else Quarters(signals[..|signals| - 1]) + if signals[|signals| - 1].Some? then 1 else 0
  }

  function Halves(signals: seq<Option<Signal>>): nat {
    if signals == [] then 0
    else Halves(signals[..|signals| - 1]) + if signals[|signals| - 1] == Some(HalfFrame) then 1 else 0
  }

  /** The start of a round, with no reset pending. */
  predicate RoundStart(p: Phased) {
    p.proper && p.state.apu == 0 && p.state.cpu == 0 && p.state.resetAt.None?
  }

  function Passed(step: nat, apu: nat): nat { if step <= apu then 1 else 0 }

  function QuartersPassed(apu: nat, sync: bool): nat {
    Passed(STEP_1, apu) + Passed(STEP_2, apu) + Passed(STEP_3, apu) + (if sync then 0 else Passed(STEP_4, apu)) + Passed(STEP_5, apu)
  }

  function HalvesPassed(apu: nat, sync: bool): nat {
    Passed(STEP_2, apu) + (if sync then 0 else Passed(STEP_4, apu)) + Passed(STEP_5, apu)
  }

  lemma TicksSplit(p: Phased, n: nat)
    requires n > 0
    ensures AfterAll(p, Ticks(n)) == After(AfterAll(p, Ticks(n - 1)), Tick)
  {
    hide After, AfterAll;
    assert Ticks(n) == Ticks(n - 1) + [Tick];
    AfterOne(p, Ticks(n - 1), Tick);
  }

  /** `n` clocks into a round. */
  predicate Inside(q: Phased, n: nat, sync: bool) {
    && q.state.cpu == n && q.state.apu == (n + 1) / 2 && q.proper == (n % 2 == 0)
    && q.state.resetAt.None? && q.state.externalSync == sync
  }

  lemma InsideNext(q: Phased, n: nat, sync: bool)
    requires Inside(q, n, sync) && n + 1 <= Period(sync)
    ensures if n + 1 < Period(sync) then Inside(After(q, Tick), n + 1, sync)
            else RoundStart(After(q, Tick)) && After(q, Tick).state.externalSync == sync
    ensures ClockSignal(q.state, q.proper) == if n % 2 == 0 then SignalAt(n / 2 + 1, sync) else None
  {
    hide SignalAt;
    if n % 2 == 0 {
      var k := n / 2;
      assert n == 2 * k && (n + 1) / 2 == k && (n + 2) / 2 == k + 1;
    } else {
      var k := n / 2;
      assert n == 2 * k + 1 && (n + 1) / 2 == k + 1 && (n + 2) / 2 == k + 1;
    }
  }

  lemma StepPasses(apu: nat, sync: bool)
    ensures QuartersPassed(apu + 1, sync) == QuartersPassed(apu, sync) + if SignalAt(apu + 1, sync).Some? then 1 else 0
    ensures HalvesPassed(apu + 1, sync) == HalvesPassed(apu, sync) + if SignalAt(apu + 1, sync) == Some(HalfFrame) then 1 else 0
  {
  }

  lemma CountsOne(signals: seq<Option<Signal>>, signal: Option<Signal>)
    ensures Quarters(signals + [signal]) == Quarters(signals) + if signal.Some? then 1 else 0
    ensures Halves(signals + [signal]) == Halves(signals) + if signal == Some(HalfFrame) then 1 else 0
  {
    assert (signals + [signal])[..|signals|] == signals;
  }

  /** Inside a round the counters say how many clocks have passed, and every step passed has signalled. */
  lemma {:induction false} InsideRound(p: Phased, n: nat)
    requires RoundStart(p) && n < Period(p.state.externalSync)
    ensures Inside(AfterAll(p, Ticks(n)), n, p.state.externalSync)
    ensures Quarters(Signals(p, n)) == QuartersPassed((n + 1) / 2, p.state.externalSync)
    ensures Halves(Signals(p, n)) == HalvesPassed((n + 1) / 2, p.state.externalSync)
    decreases n
  {
    hide After, SignalAt, Inside, QuartersPassed, HalvesPassed, Quarters, Halves, ClockSignal;
    var sync := p.state.externalSync;
    if n == 0 {
      NothingPassed(p, sync);
    } else {
      InsideRound(p, n - 1);
      TicksSplit(p, n);
      var q := AfterAll(p, Ticks(n - 1));
      InsideNext(q, n - 1, sync);
      CountsOne(Signals(p, n - 1), ClockSignal(q.state, q.proper));
      if n % 2 == 1 {
        StepPasses(n / 2, sync);
        assert (n - 1) / 2 == n / 2 && (n + 1) / 2 == n / 2 + 1;
      } else {
        assert (n + 1) / 2 == n / 2;
      }
    }
  }

  lemma NothingPassed(p: Phased, sync: bool)
    requires RoundStart(p) && sync == p.state.externalSync
    ensures Inside(AfterAll(p, Ticks(0)), 0, sync) && QuartersPassed(0, sync) == 0 && HalvesPassed(0, sync) == 0
    ensures Quarters([]) == 0 && Halves([]) == 0
  {
  }

  lemma AllPassed(sync: bool)
    ensures var n := Period(sync);
      QuartersPassed(n / 2, sync) == 4 && HalvesPassed(n / 2, sync) == 2 && (n - 1) % 2 == 1
  {
  }

  /** A round ends where it began, after exactly four quarter-frame clocks, two of them half-frame clocks. */
  lemma OneRound(p: Phased)
    requires RoundStart(p)
    ensures var n := Period(p.state.externalSync);
      && RoundStart(AfterAll(p, Ticks(n))) && AfterAll(p, Ticks(n)).state.externalSync == p.state.externalSync
      && Quarters(Signals(p, n)) == 4 && Halves(Signals(p, n)) == 2
  {
    hide After, SignalAt, Inside, QuartersPassed, HalvesPassed, Quarters, Halves, ClockSignal, RoundStart;
    var sync := p.state.externalSync;
    var n := Period(sync);
    InsideRound(p, n - 1);
    TicksSplit(p, n);
    var q := AfterAll(p, Ticks(n - 1));
    InsideNext(q, n - 1, sync);
    CountsOne(Signals(p, n - 1), ClockSignal(q.state, q.proper));
    AllPassed(sync);
  }

  lemma TicksJoin(p: Phased, m: nat, n: nat)
    ensures AfterAll(p, Ticks(m + n)) == AfterAll(AfterAll(p, Ticks(m)), Ticks(n))
    ensures Signals(p, m + n) == Signals(p, m) + Signals(AfterAll(p, Ticks(m)), n)
    decreases n
  {
    hide After, ClockSignal;
    if n == 0 {
    } else {
      TicksJoin(p, m, n - 1);
      TicksSplit(p, m + n);
      TicksSplit(AfterAll(p, Ticks(m)), n);
    }
  }

  lemma {:induction false} CountsJoin(a: seq<Option<Signal>>, b: seq<Option<Signal>>)
    ensures Quarters(a + b) == Quarters(a) + Quarters(b) && Halves(a + b) == Halves(a) + Halves(b)
    decreases |b|
  {
    hide Quarters, Halves;
    if b == [] {
      assert a + b == a;
      NoSignals();
    } else {
      var most, last := b[..|b| - 1], b[|b| - 1];
      CountsJoin(a, most);
      CountsOne(a + most, last);
      CountsOne(most, last);
      assert a + b == a + most + [last] && b == most + [last];
    }
  }

  lemma NoClocks(p: Phased)
    ensures AfterAll(p, Ticks(0)) == p && Signals(p, 0) == []
  {
  }

  lemma OneMore(rounds: nat, period: nat)
    requires rounds > 0
    ensures rounds * period == (rounds - 1) * period + period
  {
  }

  lemma NoSignals()
    ensures Quarters([]) == 0 && Halves([]) == 0
  {
  }

  /** Every period of 29830 clocks (37282 with the fifth step) clocks the quarter frame four times, the half frame twice. */
  lemma {:induction false} ManyRounds(p: Phased, rounds: nat)
    requires RoundStart(p)
    ensures var n := rounds * Period(p.state.externalSync);
      && RoundStart(AfterAll(p, Ticks(n))) && AfterAll(p, Ticks(n)).state.externalSync == p.state.externalSync
      && Quarters(Signals(p, n)) == 4 * rounds && Halves(Signals(p, n)) == 2 * rounds
    ensures Period(false) == 29830 && Period(true) == 37282
    decreases rounds
  {
    hide After, AfterAll, Signals, Quarters, Halves, RoundStart;
    if rounds == 0 {
      NoClocks(p);
      NoSignals();
    } else {
      var period := Period(p.state.externalSync);
      ManyRounds(p, rounds - 1);
      var m := (rounds - 1) * period;
      var q := AfterAll(p, Ticks(m));
      OneRound(q);
      TicksJoin(p, m, period);
      CountsJoin(Signals(p, m), Signals(q, period));
      OneMore(rounds, period);
    }
  }

  // --- the unit itself, and the units it clocks

  lemma SameSync(s: State)
    ensures Proper(Counted(s)).externalSync == s.externalSync && Counted(s).externalSync == s.externalSync
  {
  }

  class FrameCounter {
    var externalSync: bool
    var frameInterrupt: bool
    var interruptInhibit: bool
    var apuCycleCounter: nat
    var cpuCycleCounter: nat
    var resetAt: Option<nat>

    function View(): State
      reads this
    {
      State(externalSync, frameInterrupt, interruptInhibit, apuCycleCounter, cpuCycleCounter, resetAt)
    }

    ghost predicate Valid()
      reads this
    {
      Ahead(View())
    }

    constructor ()
      ensures Valid() && View() == POWER_ON.state
    {
      externalSync, frameInterrupt, interruptInhibit := false, false, false;
      apuCycleCounter, cpuCycleCounter, resetAt := 0, 0, None;
    }

    method Clock(isProper: bool) returns (signal: Option<Signal>)
      requires Valid()
      modifies this
      ensures Valid()
      ensures View() == Clocked(old(View()), isProper) && signal == ClockSignal(old(View()), isProper)
    {
      hide Ahead, Counted, Proper, Improper, SignalAt;
      ClockAhead(View(), isProper);
      signal := None;
      Count();
      if isProper {
        SameSync(old(View()));
        signal := ClockProper();
      } else {
        ClockImproper();
      }
    }

    /** Counts the clock, and carries out a reset that is due. */
    method Count()
      modifies `cpuCycleCounter, `apuCycleCounter, `resetAt
      ensures View() == Counted(old(View()))
    {
      cpuCycleCounter := (cpuCycleCounter + 1) % WRAP;
      if resetAt == Some(cpuCycleCounter) {
        apuCycleCounter := 0;
        cpuCycleCounter := 0;
        resetAt := None;
      }
    }

    method ClockProper() returns (signal: Option<Signal>)
      modifies `apuCycleCounter
      ensures View() == Proper(old(View())) && signal == SignalAt(apuCycleCounter, externalSync)
    {
      signal := None;
      apuCycleCounter := (apuCycleCounter + 1) % WRAP;
      if apuCycleCounter == STEP_1 || apuCycleCounter == STEP_3 {
        signal := Some(QuarterFrame);
      } else if apuCycleCounter == STEP_2 || apuCycleCounter == STEP_5 {
        signal := Some(HalfFrame);
      } else if apuCycleCounter == STEP_4 && !externalSync {
        signal := Some(HalfFrame);
      }
    }

    method ClockImproper()
      modifies `frameInterrupt, `resetAt, `apuCycleCounter, `cpuCycleCounter
      ensures View() == Improper(old(View()))
    {
      if !externalSync && !interruptInhibit
         && (apuCycleCounter == STEP_4 - 1 || apuCycleCounter == STEP_4 || apuCycleCounter == STEP_4 + 1) {
        frameInterrupt := true;
      }
      if (externalSync && apuCycleCounter == STEP_5 + 1) || (!externalSync && apuCycleCounter == STEP_4 + 1) {
        if resetAt.Some? {
          resetAt := Some((resetAt.value - cpuCycleCounter) % WRAP);
        }
        apuCycleCounter := 0;
        cpuCycleCounter := 0;
      }
    }

    /** A write to $4017, whether or not a reset is pending. */
    method Configure(data: byte) returns (signal: Option<Signal>)
      requires Valid()
      modifies this
      ensures Valid()
      ensures signal == if data & 0x80 != 0 then Some(HalfFrame) else None
      ensures View() == Configured(old(View()), data & 0x80 != 0, data & 0x40 != 0)
    {
      hide Left;
      ConfiguredLeft(View(), data & 0x80 != 0, data & 0x40 != 0);
      externalSync := data & 0x80 != 0;
      resetAt := Some((cpuCycleCounter + 3) % WRAP);
      signal := if data & 0x80 != 0 then Some(HalfFrame) else None;
      interruptInhibit := data & 0x40 != 0;
      if data & 0x40 != 0 {
        frameInterrupt := false;
      }
    }

    method GetFrameInterruptForRegister() returns (raised: bool)
      modifies `frameInterrupt
      ensures raised == old(frameInterrupt) && !frameInterrupt
    {
      raised := frameInterrupt;
      frameInterrupt := false;
    }
  }
}
