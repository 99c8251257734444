/**
  The device state shared by the request handlers and the main loop, and
  the three ways it changes inside the command layer: running a one-shot
  command, arming a pattern, and one poll of the pattern engine.
  Timestamps and the delay are 32-bit unsigned values, as on the target.
*/
module Device {
  import opened Wrappers
  import opened Indicator
  import opened Commands
  import opened Patterns
  import opened Uint32
  import Nec

  /**
    `currentPattern` is 0 when no pattern is armed, else a pattern id;
    `patternState` 0 means the first colour is due next.
  */
  datatype State = State(
    indicator: Rgb,
    currentPattern: int,
    patternState: int,
    lastPatternTime: U32,
    colorPairDelay: U32)

  /** A new state and the frames sent on the way to it, in order. */
  datatype Step = Step(state: State, sent: seq<Nec.Frame>)

  /** The state after start-up: indicator cleared, nothing armed, 500 ms delay. */
  const Boot := State(Dark, 0, 0, 0, 500)

  /** Runs one command: its pin writes, then its single transmission. Nothing else changes. */
  function Execute(s: State, c: Command): (r: Step)
    ensures r.sent == [Transmission(c)]
    ensures r.state == s.(indicator := r.state.indicator)
    ensures EffectOf(c).Show? ==> r.state.indicator == EffectOf(c).mask
    ensures EffectOf(c).Keep? ==> r.state.indicator == s.indicator
  {
    Step(s.(indicator := IndicatorAfter(s.indicator, c)), [Transmission(c)])
  }

  /**
    Arms a pattern at time `now`: records it with the first colour still due,
    restarts the interval, and shows the first colour at once.
  */
  function Arm(s: State, p: Pattern, now: U32): (r: Step)
    ensures r.state.currentPattern == Id(p) && r.state.patternState == 0
    ensures r.state.lastPatternTime == now && r.state.colorPairDelay == s.colorPairDelay
    ensures r.state.indicator == EffectOf(First(p)).mask
    ensures r.sent == [Transmission(First(p))]
  {
    Execute(s.(currentPattern := Id(p), patternState := 0, lastPatternTime := now), First(p))
  }

  /** At least one interval has passed since the last firing (32-bit unsigned subtraction). */
  predicate Due(s: State, now: U32)
  {
    Sub(now, s.lastPatternTime) >= s.colorPairDelay
  }

  /** A poll at `now` does something: a pattern is armed and the interval has passed. */
  predicate Fires(s: State, now: U32)
  {
    s.currentPattern != 0 && Due(s, now)
  }

  /** The command a pattern fires next in the given phase (0 = first colour, anything else = second). */
  function PhaseCommand(p: Pattern, phase: int): Command
  {
    if phase == 0 then First(p) else Second(p)
  }

  /**
    One poll of the pattern engine. A poll that does not fire changes nothing.
    A firing poll restarts the interval and, for a known pattern, sends the
    colour of the current phase and flips the phase; an unknown pattern id
    disarms without sending. At most one colour is sent per poll, however
    many intervals have passed.
  */
  function Tick(s: State, now: U32): (r: Step)
    ensures !Fires(s, now) ==> r == Step(s, [])
    ensures Fires(s, now) ==>
      && r.state.lastPatternTime == now
      && r.state.colorPairDelay == s.colorPairDelay
      && |r.sent| <= 1
    ensures Fires(s, now) && 1 <= s.currentPattern <= 6 ==>
      var c := PhaseCommand(FromId(s.currentPattern).value, s.patternState);
      && r.sent == [Transmission(c)]
      && r.state.indicator == EffectOf(c).mask
      && r.state.currentPattern == s.currentPattern
      && r.state.patternState == (if s.patternState == 0 then 1 else 0)
    ensures Fires(s, now) && !(1 <= s.currentPattern <= 6) ==>
      && r.sent == []
      && r.state == s.(currentPattern := 0, patternState := 0, lastPatternTime := now)
  {
    if s.currentPattern == 0 then Step(s, [])
    else if !Due(s, now) then Step(s, [])
    else
      var restarted := s.(lastPatternTime := now);
      match FromId(s.currentPattern)
      case None => Step(restarted.(currentPattern := 0, patternState := 0), [])
      case Some(p) =>
        if s.patternState == 0 then
          var e := Execute(restarted, First(p));
          Step(e.state.(patternState := 1), e.sent)
        else
          var e := Execute(restarted, Second(p));
          Step(e.state.(patternState := 0), e.sent)
  }

  /**
    The elapsed-time test survives the 32-bit millisecond counter wrapping:
    `elapsed` milliseconds (fewer than 2^32) after the last firing, a poll is
    due exactly when `elapsed` reaches the delay, even when the counter
    wrapped past zero in between.
  */
  lemma DueIsWrapSafe(s: State, elapsed: U32, now: U32)
    requires now == Add(s.lastPatternTime, elapsed)
    ensures Due(s, now) <==> elapsed >= s.colorPairDelay
  {
    SubAdd(s.lastPatternTime, elapsed);
  }

  /**
    As written, arming leaves the first colour due although arming already
    showed it, so the first firing poll after arming sends that colour again.
  */
  lemma ArmThenTickRepeatsFirst(s: State, p: Pattern, armedAt: U32, now: U32)
    requires Sub(now, armedAt) >= s.colorPairDelay
    ensures Tick(Arm(s, p, armedAt).state, now).sent == Arm(s, p, armedAt).sent
    ensures Tick(Arm(s, p, armedAt).state, now).state.patternState == 1
  {
    var armed := Arm(s, p, armedAt).state;
    FromIdOfId(p);
    assert Fires(armed, now);
    assert PhaseCommand(FromId(armed.currentPattern).value, armed.patternState) == First(p);
  }

  /** States the firmware can reach: a known pattern or none, a phase of 0 or 1, a delay the speed handler allows. */
  predicate Valid(s: State)
  {
    && 0 <= s.currentPattern <= 6
    && 0 <= s.patternState <= 1
    && 100 <= s.colorPairDelay <= 5000
  }

  /**
    While a pattern is armed the indicator shows one of its two colours, and
    while the second colour is due it shows the first.
  */
  predicate ShowsPattern(s: State)
  {
    1 <= s.currentPattern <= 6 ==>
      var p := FromId(s.currentPattern).value;
      && (s.indicator == EffectOf(First(p)).mask || s.indicator == EffectOf(Second(p)).mask)
      && (s.patternState != 0 ==> s.indicator == EffectOf(First(p)).mask)
  }

  lemma BootIsValid()
    ensures Valid(Boot) && ShowsPattern(Boot)
  {
  }

  /** Arming keeps both invariants. */
  lemma ArmPreserves(s: State, p: Pattern, now: U32)
    requires Valid(s)
    ensures Valid(Arm(s, p, now).state) && ShowsPattern(Arm(s, p, now).state)
  {
    FromIdOfId(p);
  }

  /**
    Polling keeps both invariants, and from a valid state the disarming
    fallback for an unknown id is never taken: every firing poll sends
    exactly one colour.
  */
  lemma TickPreserves(s: State, now: U32)
    requires Valid(s) && ShowsPattern(s)
    ensures Valid(Tick(s, now).state) && ShowsPattern(Tick(s, now).state)
    ensures Fires(s, now) ==> |Tick(s, now).sent| == 1
  {
  }
}
