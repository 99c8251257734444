/**
  The firmware's thirty one-shot commands: eighteen for the K8 remote and
  twelve for the second ("Chinese") remote. Each one performs a fixed
  sequence of indicator pin writes and then sends one 32-bit NEC code.
*/
module Commands {
  import opened Indicator
  import Nec
  import opened Wrappers

  datatype Family = K8 | Chinese

  datatype Command =
    | Red | Green | Blue | Yellow | Cyan | Magenta | White | Off
    | Fade | Strobeplus | RgbStrobe | Rainbow | Halfstrobe | BgStrobe | GrStrobe
    | Next | Demo | Previous
    | ChineseRed | ChineseGreen | ChineseBlue | ChineseWhite
    | ChineseBrtUp | ChineseBrtDown | ChineseOff | ChineseOn
    | ChineseFlash | ChineseStrobe | ChineseFade | ChineseSmooth

  function FamilyOf(c: Command): Family
  {
    match c
    case ChineseRed | ChineseGreen | ChineseBlue | ChineseWhite
      | ChineseBrtUp | ChineseBrtDown | ChineseOff | ChineseOn
      | ChineseFlash | ChineseStrobe | ChineseFade | ChineseSmooth => Chinese
    case _ => K8
  }

  /** The address bytes every code of a family starts with. */
  function AddressOf(f: Family): bv16
  {
    match f
    case K8 => 0x00FF
    case Chinese => 0x00F7
  }

  /** The code each command transmits. */
  function Code(c: Command): bv32
  {
    match c
    case Red => 0xFF10EF
    case Green => 0xFF906F
    case Blue => 0xFF50AF
    case Yellow => 0xFFD02F
    case Cyan => 0xFFB04F
    case Magenta => 0xFF30CF
    case White => 0xFF708F
    case Off => 0xFFE01F
    case Fade => 0xFFF00F
    case Strobeplus => 0xFFA857
    case RgbStrobe => 0xFF28D7
    case Rainbow => 0xFF6897
    case Halfstrobe => 0xFFE817
    case BgStrobe => 0xFF9867
    case GrStrobe => 0xFF18E7
    case Next => 0xFF20DF
    case Demo => 0xFF58A7
    case Previous => 0xFFA05F
    case ChineseRed => 0x00F720DF
    case ChineseGreen => 0x00F7A05F
    case ChineseBlue => 0x00F7609F
    case ChineseWhite => 0x00F7E01F
    case ChineseBrtUp => 0x00F700FF
    case ChineseBrtDown => 0x00F7807F
    case ChineseOff => 0x00F740BF
    case ChineseOn => 0x00F7C03F
    case ChineseFlash => 0x00F7D02F
    case ChineseStrobe => 0x00F7F00F
    case ChineseFade => 0x00F7C837
    case ChineseSmooth => 0x00F7E817
  }

  /** The single send every command performs: its code, 32 bits, no repeat. */
  function Transmission(c: Command): Nec.Frame
  {
    Nec.NecMsb(Code(c), 32, false)
  }

  /** What a command does to the indicator, stated independently of the pin writes. */
  datatype Effect = Keep | Show(mask: Rgb)

  function EffectOf(c: Command): Effect
  {
    match c
    case Red | ChineseRed => Show(Rgb(true, false, false))
    case Green | ChineseGreen => Show(Rgb(false, true, false))
    case Blue | ChineseBlue => Show(Rgb(false, false, true))
    case Yellow => Show(Rgb(true, true, false))
    case Cyan => Show(Rgb(false, true, true))
    case Magenta => Show(Rgb(true, false, true))
    case White | ChineseWhite => Show(Rgb(true, true, true))
    case Off => Show(Dark)
    case _ => Keep
  }

  /** The pin writes each command performs, in order (White writes its three pins without clearing first). */
  function Writes(c: Command): seq<PinWrite>
  {
    match c
    case Red | ChineseRed => ClearWrites + [PinWrite(RedPin, true)]
    case Green | ChineseGreen => ClearWrites + [PinWrite(GreenPin, true)]
    case Blue | ChineseBlue => ClearWrites + [PinWrite(BluePin, true)]
    case Yellow => ClearWrites + [PinWrite(RedPin, true), PinWrite(GreenPin, true)]
    case Cyan => ClearWrites + [PinWrite(GreenPin, true), PinWrite(BluePin, true)]
    case Magenta => ClearWrites + [PinWrite(RedPin, true), PinWrite(BluePin, true)]
    case White => [PinWrite(RedPin, true), PinWrite(GreenPin, true), PinWrite(BluePin, true)]
    case ChineseWhite => ClearWrites + [PinWrite(RedPin, true), PinWrite(GreenPin, true), PinWrite(BluePin, true)]
    case Off => ClearWrites
    case _ => []
  }

  /** The indicator after a command has run. */
  function IndicatorAfter(ind: Rgb, c: Command): (r: Rgb)
    ensures EffectOf(c).Show? ==> r == EffectOf(c).mask
    ensures EffectOf(c).Keep? ==> r == ind
  {
    var r := Apply(ind, Writes(c));
    ShowMatchesEffect(ind, c);
    r
  }

  /**
    The pin writes of every command realise its effect: a colour command (and
    Off) leaves exactly its mask whatever the indicator showed before; every
    other command leaves the indicator as it was.
  */
  lemma ShowMatchesEffect(ind: Rgb, c: Command)
    ensures EffectOf(c).Show? ==> Apply(ind, Writes(c)) == EffectOf(c).mask
    ensures EffectOf(c).Keep? ==> Apply(ind, Writes(c)) == ind
  {
    match c
    case Red | ChineseRed => ApplyAppend(ind, ClearWrites, [PinWrite(RedPin, true)]);
    case Green | ChineseGreen => ApplyAppend(ind, ClearWrites, [PinWrite(GreenPin, true)]);
    case Blue | ChineseBlue => ApplyAppend(ind, ClearWrites, [PinWrite(BluePin, true)]);
    case Yellow => ApplyAppend(ind, ClearWrites, [PinWrite(RedPin, true), PinWrite(GreenPin, true)]);
    case Cyan => ApplyAppend(ind, ClearWrites, [PinWrite(GreenPin, true), PinWrite(BluePin, true)]);
    case Magenta => ApplyAppend(ind, ClearWrites, [PinWrite(RedPin, true), PinWrite(BluePin, true)]);
    case ChineseWhite =>
      ApplyAppend(ind, ClearWrites, [PinWrite(RedPin, true), PinWrite(GreenPin, true), PinWrite(BluePin, true)]);
    case White =>
      CoveringWritesForget(ind, Dark, Writes(White));
    case Off =>
      assert Clear(ind) == Dark;
    case _ =>
      assert Writes(c) == [];
  }

  /**
    Every code is a frame a NEC receiver accepts (the last byte inverts the
    command byte) and carries its family's address; the K8 codes also use
    classic addressing.
  */
  lemma CodeIsNecFrame(c: Command)
    ensures Nec.WellFormed(Code(c))
    ensures Nec.Address(Code(c)) == AddressOf(FamilyOf(c))
    ensures FamilyOf(c) == K8 ==> Nec.ClassicAddress(Code(c))
    ensures Nec.Decode(Code(c)) == Some((AddressOf(FamilyOf(c)), Nec.CommandByte(Code(c))))
  {
  }

  /** No two commands share a code, so a receiver can always tell which command was sent. */
  lemma CodesDistinct(c1: Command, c2: Command)
    ensures Code(c1) == Code(c2) ==> c1 == c2
  {
  }
}
