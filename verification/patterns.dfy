/**
  The six two-colour patterns an `extra_*` request can arm. The firmware
  keeps the armed pattern as a small integer (0 meaning none); `Id` and
  `FromId` translate between that integer and the pattern.
*/
module Patterns {
  import opened Wrappers
  import opened Commands

  datatype Pattern = RedBlue | RedGreen | RedWhite | GreenBlue | GreenWhite | BlueWhite

  /** The integer stored for an armed pattern. */
  function Id(p: Pattern): (n: int)
    ensures 1 <= n <= 6
  {
    match p
    case RedBlue => 1
    case RedGreen => 2
    case RedWhite => 3
    case GreenBlue => 4
    case GreenWhite => 5
    case BlueWhite => 6
  }

  /** The pattern a stored integer names; only 1 through 6 name one. */
  function FromId(n: int): (r: Option<Pattern>)
    ensures r.Some? <==> 1 <= n <= 6
    ensures r.Some? ==> Id(r.value) == n
  {
    if n == 1 then Some(RedBlue)
    else if n == 2 then Some(RedGreen)
    else if n == 3 then Some(RedWhite)
    else if n == 4 then Some(GreenBlue)
    else if n == 5 then Some(GreenWhite)
    else if n == 6 then Some(BlueWhite)
    else None
  }

  /** Storing a pattern and reading it back gives the same pattern. */
  lemma FromIdOfId(p: Pattern)
    ensures FromId(Id(p)) == Some(p)
  {
  }

  /** The colour a pattern shows on arming and on every firing while `patternState` is 0. */
  function First(p: Pattern): (c: Command)
    ensures FamilyOf(c) == Chinese && EffectOf(c).Show?
  {
    match p
    case RedBlue | RedGreen | RedWhite => ChineseRed
    case GreenBlue | GreenWhite => ChineseGreen
    case BlueWhite => ChineseBlue
  }

  /** The colour a pattern shows second; it always differs from the first. */
  function Second(p: Pattern): (c: Command)
    ensures FamilyOf(c) == Chinese && EffectOf(c).Show?
    ensures c != First(p) && EffectOf(c) != EffectOf(First(p))
  {
    match p
    case RedBlue | GreenBlue => ChineseBlue
    case RedGreen => ChineseGreen
    case RedWhite | GreenWhite | BlueWhite => ChineseWhite
  }
}
