/**
  The firmware as a sequence of atomic steps: a poll of the pattern engine
  from the main loop, an `/action` request or a `/set_speed` request. Runs
  of such steps keep the reachable-state invariants, and two scenarios show
  how the pattern engine behaves over time.
*/
module Firmware {
  import opened Wrappers
  import opened Uint32
  import opened Indicator
  import opened Commands
  import opened Patterns
  import opened Device
  import opened Actions
  import opened Speed

  datatype Event =
    | Poll(now: U32)
    | ActionRequest(doParam: Option<string>, now: U32)
    | SpeedRequest(speedParam: Option<string>)

  /** One atomic step; no step sends more than one frame. */
  function Handle(s: State, e: Event): (r: Step)
    ensures |r.sent| <= 1
    ensures e.SpeedRequest? ==> r.sent == [] && r.state.indicator == s.indicator
  {
    match e
    case Poll(now) => Tick(s, now)
    case ActionRequest(doParam, now) =>
      var reply := HandleAction(s, doParam, now);
      Step(reply.state, reply.sent)
    case SpeedRequest(speedParam) =>
      var reply := HandleSetSpeed(s, speedParam);
      Step(reply.state, reply.sent)
  }

  /** Steps run one after another; the frames sent are logged in order. Never more frames than steps. */
  function Run(s: State, events: seq<Event>): (r: Step)
    ensures |r.sent| <= |events|
    decreases |events|
  {
    if events == [] then Step(s, [])
    else
      var first := Handle(s, events[0]);
      var rest := Run(first.state, events[1..]);
      Step(rest.state, first.sent + rest.sent)
  }

  /** Every kind of step keeps the reachable-state invariants. */
  lemma HandlePreserves(s: State, e: Event)
    requires Valid(s) && ShowsPattern(s)
    ensures Valid(Handle(s, e).state) && ShowsPattern(Handle(s, e).state)
  {
    match e
    case Poll(now) => TickPreserves(s, now);
    case ActionRequest(doParam, now) => HandleActionPreserves(s, doParam, now);
    case SpeedRequest(speedParam) => HandleSetSpeedPreserves(s, speedParam);
  }

  /** A run of steps from a valid state keeps the reachable-state invariants. */
  lemma {:induction false} RunPreserves(s: State, events: seq<Event>)
    requires Valid(s) && ShowsPattern(s)
    ensures Valid(Run(s, events).state) && ShowsPattern(Run(s, events).state)
    decreases |events|
  {
    if events != [] {
      HandlePreserves(s, events[0]);
      RunPreserves(Handle(s, events[0]).state, events[1..]);
    }
  }

  /**
    Every state reachable from start-up is valid and, while a pattern is
    armed, shows one of its colours; so in this sequential model the pattern
    engine's fallback for an unknown pattern id is never taken.
  */
  lemma ReachableFromBoot(events: seq<Event>)
    ensures Valid(Run(Boot, events).state) && ShowsPattern(Run(Boot, events).state)
  {
    BootIsValid();
    RunPreserves(Boot, events);
  }

  /**
    The pattern engine over time, as written: arm a pattern at `t0`, then
    poll at `t0` and at one, two and three delays later. The frames sent are
    first, first, second, first: the first colour is sent twice in a row,
    because arming sends it and still leaves it due. Each poll sends at most
    one frame.
  */
  lemma PatternTimeline(s: State, p: Pattern, t0: U32)
    requires Valid(s)
    ensures var d := s.colorPairDelay;
      var t1 := Add(t0, d);
      var t2 := Add(t1, d);
      var t3 := Add(t2, d);
      var armed := HandleAction(s, Some(PatternName(p)), t0);
      var poll0 := Tick(armed.state, t0);
      var poll1 := Tick(poll0.state, t1);
      var poll2 := Tick(poll1.state, t2);
      var poll3 := Tick(poll2.state, t3);
      && armed.sent + poll0.sent + poll1.sent + poll2.sent + poll3.sent
        == [Transmission(First(p)), Transmission(First(p)), Transmission(Second(p)), Transmission(First(p))]
      && poll3.state.currentPattern == Id(p)
  {
    var d := s.colorPairDelay;
    var t1 := Add(t0, d);
    var t2 := Add(t1, d);
    LookupName(Extra(p));
    FromIdOfId(p);
    var armed := HandleAction(s, Some(PatternName(p)), t0);
    assert armed.state == Arm(s, p, t0).state;
    SubAdd(t0, d);
    SubAdd(t1, d);
    SubAdd(t2, d);
  }

  /**
    A complete session from start-up with the default 500 ms delay: arm
    green/white at 0 ms, poll at 500 and 1000 ms, request `off` at 1200 ms,
    poll at 1700 ms. The indicator shows green, green, white, then goes dark;
    after `off` the poll sends nothing.
  */
  lemma GreenWhiteSession()
    ensures var armed := HandleAction(Boot, Some("extra_green_white"), 0);
      var poll1 := Tick(armed.state, 500);
      var poll2 := Tick(poll1.state, 1000);
      var off := HandleAction(poll2.state, Some("off"), 1200);
      var poll3 := Tick(off.state, 1700);
      && armed.sent == [Transmission(ChineseGreen)] && armed.state.indicator == Rgb(false, true, false)
      && poll1.sent == [Transmission(ChineseGreen)] && poll1.state.indicator == Rgb(false, true, false)
      && poll2.sent == [Transmission(ChineseWhite)] && poll2.state.indicator == Rgb(true, true, true)
      && off.sent == [Transmission(Off)] && off.state.indicator == Dark && off.state.currentPattern == 0
      && poll3.sent == [] && poll3.state == off.state
  {
    LookupName(Extra(GreenWhite));
    LookupName(OneShot(Off));
    FromIdOfId(GreenWhite);
  }
}
