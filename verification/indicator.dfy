/**
  The three local indicator pins (red, green, blue). The firmware changes
  them only through single-pin writes; the model keeps the resulting levels
  and proves that the last write to a pin decides its level.
*/
module Indicator {
  import opened Wrappers

  datatype Pin = RedPin | GreenPin | BluePin

  /** One digital write: drive `pin` high or low. */
  datatype PinWrite = PinWrite(pin: Pin, high: bool)

  /** The levels of the three pins. */
  datatype Rgb = Rgb(r: bool, g: bool, b: bool)

  /** All three pins low. */
  const Dark := Rgb(false, false, false)

  function Level(ind: Rgb, p: Pin): bool
  {
    match p
    case RedPin => ind.r
    case GreenPin => ind.g
    case BluePin => ind.b
  }

  /** Two indicator states agree when every pin agrees. */
  lemma Extensionality(a: Rgb, b: Rgb)
    requires forall p :: Level(a, p) == Level(b, p)
    ensures a == b
  {
    assert Level(a, RedPin) == Level(b, RedPin);
    assert Level(a, GreenPin) == Level(b, GreenPin);
    assert Level(a, BluePin) == Level(b, BluePin);
  }

  /** One digital write changes its own pin and no other. */
  function Write(ind: Rgb, w: PinWrite): (r: Rgb)
    ensures Level(r, w.pin) == w.high
    ensures forall p :: p != w.pin ==> Level(r, p) == Level(ind, p)
  {
    match w.pin
    case RedPin => ind.(r := w.high)
    case GreenPin => ind.(g := w.high)
    case BluePin => ind.(b := w.high)
  }

  /** A sequence of writes, performed in order. */
  function Apply(ind: Rgb, ws: seq<PinWrite>): Rgb
    decreases |ws|
  {
    if ws == [] then ind else Apply(Write(ind, ws[0]), ws[1..])
  }

  /** Performing two batches of writes is performing their concatenation. */
  lemma {:induction false} ApplyAppend(ind: Rgb, a: seq<PinWrite>, b: seq<PinWrite>)
    ensures Apply(ind, a + b) == Apply(Apply(ind, a), b)
    decreases |a|
  {
    if a == [] {
      assert a + b == b;
    } else {
      assert (a + b)[0] == a[0];
      assert (a + b)[1..] == a[1..] + b;
      ApplyAppend(Write(ind, a[0]), a[1..], b);
    }
  }

  /** The level of the last write to `p` in `ws`, if any write touches `p`. */
  function LastWrite(ws: seq<PinWrite>, p: Pin): Option<bool>
    decreases |ws|
  {
    if ws == [] then None
    else match LastWrite(ws[1..], p)
      case Some(h) => Some(h)
      case None => if ws[0].pin == p then Some(ws[0].high) else None
  }

  /** Last write wins: a pin ends at its last written level, or keeps its level when nothing writes it. */
  lemma {:induction false} LastWriteWins(ind: Rgb, ws: seq<PinWrite>, p: Pin)
    ensures Level(Apply(ind, ws), p) == match LastWrite(ws, p) case Some(h) => h case None => Level(ind, p)
    decreases |ws|
  {
    if ws != [] {
      LastWriteWins(Write(ind, ws[0]), ws[1..], p);
    }
  }

  /** Writes that touch every pin leave the same levels whatever the levels were before. */
  lemma {:induction false} CoveringWritesForget(ind: Rgb, other: Rgb, ws: seq<PinWrite>)
    requires forall p :: LastWrite(ws, p).Some?
    ensures Apply(ind, ws) == Apply(other, ws)
  {
    forall p
      ensures Level(Apply(ind, ws), p) == Level(Apply(other, ws), p)
    {
      LastWriteWins(ind, ws, p);
      LastWriteWins(other, ws, p);
    }
    Extensionality(Apply(ind, ws), Apply(other, ws));
  }

  /** The three low writes the firmware performs before showing a colour. */
  const ClearWrites: seq<PinWrite> := [PinWrite(RedPin, false), PinWrite(GreenPin, false), PinWrite(BluePin, false)]

  /** Drives all three pins low, whatever they showed. */
  function Clear(ind: Rgb): (r: Rgb)
    ensures r == Dark
  {
    Apply(ind, ClearWrites)
  }

  /** Clearing twice is clearing once. */
  lemma ClearIdempotent(ind: Rgb)
    ensures Clear(Clear(ind)) == Clear(ind)
  {
  }
}
