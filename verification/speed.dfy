/**
  The `/set_speed?speed=<ms>` request handler. The parameter text is
  converted with Arduino's `String::toInt`, which is C `atol`: leading
  white space is skipped, an optional sign and the longest run of decimal
  digits are read, and a value outside the 32-bit `long` range saturates.
  The handler stores that `long` in an `unsigned long` and accepts it as the
  new pattern delay only when it lies in [100, 5000].
*/
module Speed {
  import opened Wrappers
  import opened Uint32
  import opened Device
  import opened Actions

  const LongMin := -0x8000_0000
  const LongMax := 0x7FFF_FFFF

  const MinDelay := 100
  const MaxDelay := 5000

  /** The white space C's `isspace` accepts in the default locale. */
  predicate IsSpace(ch: char)
  {
    ch == ' ' || ch == '\t' || ch == '\n' || ch == '\U{B}' || ch == '\U{C}' || ch == '\r'
  }

  predicate IsDigit(ch: char)
  {
    '0' <= ch <= '9'
  }

  predicate AllDigits(s: string)
  {
    forall i :: 0 <= i < |s| ==> IsDigit(s[i])
  }

  /** Drops leading white space. */
  function SkipSpaces(s: string): (r: string)
    ensures |r| <= |s| && r == s[|s| - |r|..]
    ensures forall i :: 0 <= i < |s| - |r| ==> IsSpace(s[i])
    ensures |r| > 0 ==> !IsSpace(r[0])
  {
    if |s| > 0 && IsSpace(s[0]) then SkipSpaces(s[1..]) else s
  }

  /** The longest prefix made of decimal digits. */
  function LeadingDigits(s: string): (r: string)
    ensures |r| <= |s| && r == s[..|r|]
    ensures AllDigits(r)
    ensures |r| < |s| ==> !IsDigit(s[|r|])
  {
    if |s| > 0 && IsDigit(s[0]) then [s[0]] + LeadingDigits(s[1..]) else []
  }

  /** The value of a run of decimal digits, most significant first. */
  function DecimalValue(ds: string): nat
    requires AllDigits(ds)
  {
    if |ds| == 0 then 0
    else DecimalValue(ds[..|ds| - 1]) * 10 + ((ds[|ds| - 1] as int) - ('0' as int))
  }

  /** Saturation of an out-of-range result to the nearest `long`. */
  function Saturate(v: int): (r: int)
    ensures LongMin <= r <= LongMax
    ensures LongMin <= v <= LongMax ==> r == v
    ensures v > LongMax ==> r == LongMax
    ensures v < LongMin ==> r == LongMin
  {
    if v > LongMax then LongMax else if v < LongMin then LongMin else v
  }

  /** The signed number a text starts with (no white space skipped), 0 when no digit follows. */
  function SignedPrefix(t: string): int
  {
    if |t| > 0 && t[0] == '-' then -(DecimalValue(LeadingDigits(t[1..])) as int)
    else if |t| > 0 && t[0] == '+' then DecimalValue(LeadingDigits(t[1..]))
    else DecimalValue(LeadingDigits(t))
  }

  /** `String::toInt`: the signed decimal number the text starts with after white space, saturated; 0 if none. */
  function ToInt(str: string): (r: int)
    ensures LongMin <= r <= LongMax
  {
    Saturate(SignedPrefix(SkipSpaces(str)))
  }

  /**
    Handles `/set_speed`. It answers 200 and stores the new delay exactly
    when the parameter is present, non-empty and `toInt` gives a value in
    [100, 5000]; otherwise it answers 400 and keeps the old delay. It never
    sends a frame and never touches the indicator or the pattern fields.
  */
  function HandleSetSpeed(s: State, speedParam: Option<string>): (r: Reply)
    ensures r.sent == []
    ensures r.state == s.(colorPairDelay := r.state.colorPairDelay)
    ensures r.response.status == 200 <==>
      speedParam.Some? && |speedParam.value| > 0 && MinDelay <= ToInt(speedParam.value) <= MaxDelay
    ensures r.response.status == 200 ==> r.state.colorPairDelay == ToInt(speedParam.value)
    ensures r.response.status != 200 ==> r.response.status == 400 && r.state == s
    ensures r.response.status == 200 ==> r.response.body == "OK"
    ensures speedParam.None? ==> r.response.body == "Missing 'speed' parameter"
    ensures speedParam == Some("") ==> r.response.body == "Missing speed parameter"
    ensures speedParam.Some? && |speedParam.value| > 0 && r.response.status != 200 ==>
      r.response.body == "Speed must be between 100 and 5000ms"
  {
    match speedParam
    case None => Reply(s, [], Response(400, "Missing 'speed' parameter"))
    case Some(str) =>
      if |str| > 0 then
        var newDelay := FromInt(ToInt(str));
        if newDelay >= MinDelay && newDelay <= MaxDelay then
          Reply(s.(colorPairDelay := newDelay), [], Response(200, "OK"))
        else
          Reply(s, [], Response(400, "Speed must be between 100 and 5000ms"))
      else
        Reply(s, [], Response(400, "Missing speed parameter"))
  }

  /** Setting the speed keeps the reachable-state invariants. */
  lemma HandleSetSpeedPreserves(s: State, speedParam: Option<string>)
    requires Valid(s) && ShowsPattern(s)
    ensures Valid(HandleSetSpeed(s, speedParam).state) && ShowsPattern(HandleSetSpeed(s, speedParam).state)
  {
  }

  /** The shortest decimal text of a natural number. */
  function Decimal(n: nat): (r: string)
    ensures |r| > 0 && AllDigits(r)
  {
    var last := ('0' as int + n % 10) as char;
    if n < 10 then [last] else Decimal(n / 10) + [last]
  }

  /** Reading back the decimal text of a number gives the number. */
  lemma {:induction false} DecimalValueOfDecimal(n: nat)
    ensures DecimalValue(Decimal(n)) == n
  {
    var d := Decimal(n);
    assert d[..|d| - 1] == if n < 10 then [] else Decimal(n / 10);
    if n >= 10 {
      DecimalValueOfDecimal(n / 10);
    }
  }

  /** A run of digits is its own longest digit prefix. */
  lemma {:induction false} LeadingDigitsOfDigits(ds: string)
    requires AllDigits(ds)
    ensures LeadingDigits(ds) == ds
  {
    if |ds| > 0 {
      LeadingDigitsOfDigits(ds[1..]);
      assert ds == [ds[0]] + ds[1..];
    }
  }

  /** Text that does not start with white space is read from its first character. */
  lemma ToIntUnspaced(t: string)
    requires |t| > 0 && !IsSpace(t[0])
    ensures ToInt(t) == Saturate(SignedPrefix(t))
  {
    assert SkipSpaces(t) == t;
  }

  /** `toInt` of a non-empty run of digits is its value, saturated. */
  lemma ToIntOfDigits(ds: string)
    requires |ds| > 0 && AllDigits(ds)
    ensures ToInt(ds) == Saturate(DecimalValue(ds))
  {
    assert IsDigit(ds[0]);
    ToIntUnspaced(ds);
    LeadingDigitsOfDigits(ds);
    assert SignedPrefix(ds) == DecimalValue(ds);
  }

  /** A leading minus sign negates the digits after it. */
  lemma MinusPrefix(t: string)
    requires |t| > 0 && t[0] == '-'
    ensures SignedPrefix(t) == -(DecimalValue(LeadingDigits(t[1..])) as int)
  {
  }

  /** `toInt` of a minus sign and a non-empty run of digits is the negated value, saturated. */
  lemma ToIntOfNegatedDigits(t: string)
    requires |t| > 1 && t[0] == '-' && AllDigits(t[1..])
    ensures ToInt(t) == Saturate(-(DecimalValue(t[1..]) as int))
  {
    ToIntUnspaced(t);
    LeadingDigitsOfDigits(t[1..]);
    MinusPrefix(t);
    var v := -(DecimalValue(t[1..]) as int);
    assert SignedPrefix(t) == v;
  }

  /** `toInt` reads the decimal text of a number back as that number (saturated). */
  lemma ToIntOfDecimal(n: nat)
    ensures ToInt(Decimal(n)) == Saturate(n)
  {
    DecimalValueOfDecimal(n);
    ToIntOfDigits(Decimal(n));
  }

  /**
    The speed handler accepts the decimal text of a delay exactly when the
    delay is within [100, 5000], both ends included, and then stores it.
  */
  lemma SetSpeedOfDecimal(s: State, n: nat)
    ensures var r := HandleSetSpeed(s, Some(Decimal(n)));
      && (r.response.status == 200 <==> MinDelay <= n <= MaxDelay)
      && (r.response.status == 200 ==> r.state.colorPairDelay == n)
  {
    ToIntOfDecimal(n);
  }

  /**
    Text starting with a minus sign is always refused: its value is never
    positive, and saturation keeps it from wrapping round into the range
    once it is stored as an unsigned value.
  */
  lemma SetSpeedRefusesNegative(s: State, ds: string)
    requires |ds| > 0 && AllDigits(ds)
    ensures HandleSetSpeed(s, Some("-" + ds)) == Reply(s, [], Response(400, "Speed must be between 100 and 5000ms"))
  {
    var t := "-" + ds;
    assert t[0] == '-' && t[1..] == ds;
    ToIntOfNegatedDigits(t);
  }
}
