/**
  The `/action?do=<name>` request handler: it maps an action name to one of
  the thirty one-shot commands (disarming any pattern first) or to one of
  the six `extra_*` pattern arms, and rejects anything else.
*/
module Actions {
  import opened Wrappers
  import opened Uint32
  import opened Commands
  import opened Patterns
  import opened Device
  import Nec

  datatype Action = OneShot(command: Command) | Extra(pattern: Pattern)

  /** The request name of each one-shot command. */
  function CommandName(c: Command): string
  {
    match c
    case Red => "red"
    case Green => "green"
    case Blue => "blue"
    case Yellow => "yellow"
    case Cyan => "cyan"
    case Magenta => "magenta"
    case White => "white"
    case Off => "off"
    case Fade => "fade"
    case Strobeplus => "strobeplus"
    case RgbStrobe => "rgbstrobe"
    case Rainbow => "rainbow"
    case Halfstrobe => "halfstrobe"
    case BgStrobe => "bgstrobe"
    case GrStrobe => "grstrobe"
    case Next => "next"
    case Demo => "demo"
    case Previous => "previous"
    case ChineseRed => "chinese_red"
    case ChineseGreen => "chinese_green"
    case ChineseBlue => "chinese_blue"
    case ChineseWhite => "chinese_white"
    case ChineseBrtUp => "chinese_brt_up"
    case ChineseBrtDown => "chinese_brt_down"
    case ChineseOff => "chinese_off"
    case ChineseOn => "chinese_on"
    case ChineseFlash => "chinese_flash"
    case ChineseStrobe => "chinese_strobe"
    case ChineseFade => "chinese_fade"
    case ChineseSmooth => "chinese_smooth"
  }

  /** The request name of each pattern. */
  function PatternName(p: Pattern): string
  {
    match p
    case RedBlue => "extra_red_blue"
    case RedGreen => "extra_red_green"
    case RedWhite => "extra_red_white"
    case GreenBlue => "extra_green_blue"
    case GreenWhite => "extra_green_white"
    case BlueWhite => "extra_blue_white"
  }

  function ActionName(a: Action): string
  {
    match a
    case OneShot(c) => CommandName(c)
    case Extra(p) => PatternName(p)
  }

  /** The first eighteen comparisons of the handler: the K8 remote's names. */
  function LookupK8(name: string): (r: Option<Command>)
    ensures r.Some? ==> CommandName(r.value) == name && FamilyOf(r.value) == K8
    ensures '_' in name ==> r.None?
  {
    if name == "red" then Some(Red)
    else if name == "green" then Some(Green)
    else if name == "blue" then Some(Blue)
    else if name == "yellow" then Some(Yellow)
    else if name == "cyan" then Some(Cyan)
    else if name == "magenta" then Some(Magenta)
    else if name == "white" then Some(White)
    else if name == "off" then Some(Off)
    else if name == "fade" then Some(Fade)
    else if name == "strobeplus" then Some(Strobeplus)
    else if name == "rgbstrobe" then Some(RgbStrobe)
    else if name == "rainbow" then Some(Rainbow)
    else if name == "halfstrobe" then Some(Halfstrobe)
    else if name == "bgstrobe" then Some(BgStrobe)
    else if name == "grstrobe" then Some(GrStrobe)
    else if name == "next" then Some(Next)
    else if name == "demo" then Some(Demo)
    else if name == "previous" then Some(Previous)
    else None
  }

  /** The next twelve comparisons: the second remote's names. */
  function LookupChinese(name: string): (r: Option<Command>)
    ensures r.Some? ==> CommandName(r.value) == name && FamilyOf(r.value) == Chinese
    ensures |name| > 0 && name[0] != 'c' ==> r.None?
  {
    if name == "chinese_red" then Some(ChineseRed)
    else if name == "chinese_green" then Some(ChineseGreen)
    else if name == "chinese_blue" then Some(ChineseBlue)
    else if name == "chinese_white" then Some(ChineseWhite)
    else if name == "chinese_brt_up" then Some(ChineseBrtUp)
    else if name == "chinese_brt_down" then Some(ChineseBrtDown)
    else if name == "chinese_off" then Some(ChineseOff)
    else if name == "chinese_on" then Some(ChineseOn)
    else if name == "chinese_flash" then Some(ChineseFlash)
    else if name == "chinese_strobe" then Some(ChineseStrobe)
    else if name == "chinese_fade" then Some(ChineseFade)
    else if name == "chinese_smooth" then Some(ChineseSmooth)
    else None
  }

  /** The last six comparisons: the pattern-arming names. */
  function LookupExtra(name: string): (r: Option<Pattern>)
    ensures r.Some? ==> PatternName(r.value) == name
  {
    if name == "extra_red_blue" then Some(RedBlue)
    else if name == "extra_red_green" then Some(RedGreen)
    else if name == "extra_red_white" then Some(RedWhite)
    else if name == "extra_green_blue" then Some(GreenBlue)
    else if name == "extra_green_white" then Some(GreenWhite)
    else if name == "extra_blue_white" then Some(BlueWhite)
    else None
  }

  /** The handler's whole chain of name comparisons, in its order; the first match wins. */
  function Lookup(name: string): (r: Option<Action>)
    ensures r.Some? ==> ActionName(r.value) == name
  {
    match LookupK8(name)
    case Some(c) => Some(OneShot(c))
    case None =>
      match LookupChinese(name)
      case Some(c) => Some(OneShot(c))
      case None =>
        match LookupExtra(name)
        case Some(p) => Some(Extra(p))
        case None => None
  }

  /** Each K8 name is found by the first eighteen comparisons. */
  lemma LookupK8Name(c: Command)
    requires FamilyOf(c) == K8
    ensures LookupK8(CommandName(c)) == Some(c)
  {
  }

  /** Each second-remote name passes the K8 comparisons (it has an underscore) and is found by the next twelve. */
  lemma LookupChineseName(c: Command)
    requires FamilyOf(c) == Chinese
    ensures LookupK8(CommandName(c)) == None
    ensures LookupChinese(CommandName(c)) == Some(c)
  {
    assert CommandName(c)[7] == '_';
  }

  /** Each pattern name passes the first thirty comparisons and is found by the last six. */
  lemma LookupExtraName(p: Pattern)
    ensures LookupK8(PatternName(p)) == None
    ensures LookupChinese(PatternName(p)) == None
    ensures LookupExtra(PatternName(p)) == Some(p)
  {
    assert PatternName(p)[5] == '_' && PatternName(p)[0] == 'e';
  }

  /** Every action is reachable by its own name: no earlier comparison in the chain shadows it. */
  lemma LookupName(a: Action)
    ensures Lookup(ActionName(a)) == Some(a)
  {
    match a
    case OneShot(c) =>
      if FamilyOf(c) == K8 {
        LookupK8Name(c);
      } else {
        LookupChineseName(c);
      }
    case Extra(p) =>
      LookupExtraName(p);
  }

  /** The chain rejects a name exactly when no action carries it. */
  lemma UnknownNames(name: string)
    ensures Lookup(name).None? <==> forall a :: ActionName(a) != name
  {
    if Lookup(name).None? {
      forall a
        ensures ActionName(a) != name
      {
        LookupName(a);
      }
    }
  }

  datatype Response = Response(status: int, body: string)

  /** A handler's new state, the frames it sent, and its HTTP reply. */
  datatype Reply = Reply(state: State, sent: seq<Nec.Frame>, response: Response)

  /** True when the request names an action the handler knows. */
  predicate Recognised(doParam: Option<string>)
  {
    doParam.Some? && Lookup(doParam.value).Some?
  }

  /**
    Handles `/action` at time `now`. A missing `do` parameter or an unknown
    name is answered with 400 and changes nothing and sends nothing. A
    one-shot name disarms the pattern and runs its command; an `extra_*`
    name arms its pattern. Every recognised name is answered 200 "OK".
  */
  function HandleAction(s: State, doParam: Option<string>, now: U32): (r: Reply)
    ensures r.response.status == 200 <==> Recognised(doParam)
    ensures !Recognised(doParam) ==> r.response.status == 400 && r.state == s && r.sent == []
    ensures doParam.None? ==> r.response.body == "Missing 'do' parameter"
    ensures doParam.Some? && !Recognised(doParam) ==> r.response.body == "Invalid action"
    ensures Recognised(doParam) ==> r.response == Response(200, "OK")
    ensures Recognised(doParam) && Lookup(doParam.value).value.OneShot? ==>
      var c := Lookup(doParam.value).value.command;
      && r.sent == [Transmission(c)]
      && r.state.currentPattern == 0 && r.state.patternState == 0
      && r.state.lastPatternTime == s.lastPatternTime
      && r.state.colorPairDelay == s.colorPairDelay
      && (EffectOf(c).Show? ==> r.state.indicator == EffectOf(c).mask)
      && (EffectOf(c).Keep? ==> r.state.indicator == s.indicator)
    ensures Recognised(doParam) && Lookup(doParam.value).value.Extra? ==>
      var p := Lookup(doParam.value).value.pattern;
      && FromId(r.state.currentPattern) == Some(p)
      && r.state.patternState == 0
      && r.state.lastPatternTime == now
      && r.state.colorPairDelay == s.colorPairDelay
      && r.state.indicator == EffectOf(First(p)).mask
      && r.sent == [Transmission(First(p))]
  {
    match doParam
    case None => Reply(s, [], Response(400, "Missing 'do' parameter"))
    case Some(name) =>
      match Lookup(name)
      case None => Reply(s, [], Response(400, "Invalid action"))
      case Some(OneShot(c)) =>
        var e := Execute(s.(currentPattern := 0, patternState := 0), c);
        Reply(e.state, e.sent, Response(200, "OK"))
      case Some(Extra(p)) =>
        var e := Arm(s, p, now);
        FromIdOfId(p);
        Reply(e.state, e.sent, Response(200, "OK"))
  }

  /** Turning off twice leaves the indicator dark both times and the pattern disarmed. */
  lemma OffTwice(s: State, t1: U32, t2: U32)
    ensures var first := HandleAction(s, Some("off"), t1);
      var second := HandleAction(first.state, Some("off"), t2);
      && first.state.indicator == Indicator.Dark && second.state.indicator == Indicator.Dark
      && first.state.currentPattern == 0 && second.state.currentPattern == 0
  {
    LookupName(OneShot(Off));
  }

  /** Handling a request keeps the reachable-state invariants. */
  lemma HandleActionPreserves(s: State, doParam: Option<string>, now: U32)
    requires Valid(s) && ShowsPattern(s)
    ensures Valid(HandleAction(s, doParam, now).state) && ShowsPattern(HandleAction(s, doParam, now).state)
  {
    if Recognised(doParam) && Lookup(doParam.value).value.Extra? {
      ArmPreserves(s, Lookup(doParam.value).value.pattern, now);
    }
  }
}
