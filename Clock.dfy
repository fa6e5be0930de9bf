/** The session timer of client/components/Timer.jsx: a seconds counter that
    ticks while the session is active and is reset when it ends, shown as
    zero-padded minutes and seconds. */
module Clock {
  import opened Events

  predicate IsDigit(c: char) {
    '0' <= c <= '9'
  }

  predicate IsDigits(s: string) {
    forall i :: 0 <= i < |s| ==> IsDigit(s[i])
  }

  function DigitChar(d: nat): (c: char)
    requires d < 10
    ensures IsDigit(c) && c as int - '0' as int == d
  {
    ('0' as int + d) as char
  }

  function DigitValue(c: char): nat
    requires IsDigit(c)
  {
    c as int - '0' as int
  }

  /** `n.toString()` for a non-negative integer: its decimal digits, with no
      leading zero. */
  function Decimal(n: nat): (r: string)
    ensures |r| >= 1 && IsDigits(r)
    ensures |r| > 1 ==> r[0] != '0'
    ensures n < 10 <==> |r| == 1
    ensures n < 100 <==> |r| <= 2
    decreases n
  {
    if n < 10 then [DigitChar(n)] else Decimal(n / 10) + [DigitChar(n % 10)]
  }

  /** The value of a string of decimal digits; leading zeros are allowed. */
  function ParseDigits(s: string): nat
    requires IsDigits(s)
    decreases |s|
  {
    if s == [] then 0 else ParseDigits(s[..|s| - 1]) * 10 + DigitValue(s[|s| - 1])
  }

  /** Reading the decimal digits back gives the number. */
  lemma {:induction false} DecimalRoundTrip(n: nat)
    ensures ParseDigits(Decimal(n)) == n
    decreases n
  {
    if n >= 10 {
      var d := Decimal(n / 10);
      var r := Decimal(n);
      assert r == d + [DigitChar(n % 10)];
      assert r[..|r| - 1] == d;
      DecimalRoundTrip(n / 10);
    }
  }

  /** A leading zero does not change the value. */
  lemma {:induction false} ParseLeadingZero(s: string)
    requires IsDigits(s)
    ensures IsDigits(['0'] + s) && ParseDigits(['0'] + s) == ParseDigits(s)
    decreases |s|
  {
    var t := ['0'] + s;
    if s != [] {
      assert t[..|t| - 1] == ['0'] + s[..|s| - 1];
      assert t[|t| - 1] == s[|s| - 1];
      ParseLeadingZero(s[..|s| - 1]);
    } else {
      assert t[..|t| - 1] == [];
    }
  }

  /** `s.padStart(width, fill)`: fill on the left up to `width`, never cut. */
  function PadStart(s: string, width: nat, fill: char): (r: string)
    ensures |r| == if |s| >= width then |s| else width
    ensures r[|r| - |s|..] == s
    ensures forall i :: 0 <= i < |r| - |s| ==> r[i] == fill
  {
    if |s| >= width then s else seq(width - |s|, _ => fill) + s
  }

  /** Padding to two places adds at most one zero. */
  lemma PadTwo(d: string)
    ensures |d| >= 2 ==> PadStart(d, 2, '0') == d
    ensures |d| == 1 ==> PadStart(d, 2, '0') == ['0'] + d
  {
    if |d| == 1 {
      var r := PadStart(d, 2, '0');
      assert r[0] == '0';
      assert r[1..] == d;
      assert r == [r[0]] + r[1..];
    }
  }

  /** Padding a digit string with zeros keeps it a digit string of the same value. */
  lemma PadKeepsValue(d: string)
    requires IsDigits(d) && |d| >= 1
    ensures IsDigits(PadStart(d, 2, '0'))
    ensures ParseDigits(PadStart(d, 2, '0')) == ParseDigits(d)
  {
    PadTwo(d);
    if |d| == 1 {
      ParseLeadingZero(d);
    }
  }

  /** `Math.floor(seconds / 60)` and `seconds % 60`: whole minutes and the
      seconds left over. */
  function Split(seconds: nat): (f: (nat, nat))
    ensures f.1 < 60
    ensures f.0 * 60 + f.1 == seconds
  {
    (seconds / 60, seconds % 60)
  }

  /** A field of the display: `n.toString().padStart(2, '0')`. */
  function Field(n: nat): (r: string)
    ensures |r| >= 2 && IsDigits(r)
    ensures n < 100 ==> |r| == 2
    ensures |r| > 2 ==> r[0] != '0'
  {
    var d := Decimal(n);
    PadTwo(d);
    PadStart(d, 2, '0')
  }

  /** `formatTime(seconds)`: minutes and seconds fields around a colon. */
  function FormatTime(seconds: nat): (r: string)
    ensures |r| >= 5 && r[|r| - 3] == ':'
    ensures IsDigits(r[..|r| - 3]) && IsDigits(r[|r| - 2..])
    ensures |r| > 5 ==> r[0] != '0'
  {
    var f := Split(seconds);
    Field(f.0) + ":" + Field(f.1)
  }

  /** Below 100 minutes the display is five characters with the colon in the middle. */
  lemma FormatTimeWidth(seconds: nat)
    requires seconds < 6000
    ensures |FormatTime(seconds)| == 5 && FormatTime(seconds)[2] == ':'
  {
    var f := Split(seconds);
    MinutesBelowHundred(seconds);
    DisplayShape(Field(f.0), Field(f.1));
  }

  lemma DisplayShape(a: string, b: string)
    requires |a| == 2 && |b| == 2
    ensures |a + ":" + b| == 5 && (a + ":" + b)[2] == ':'
  {
  }

  lemma MinutesBelowHundred(seconds: nat)
    requires seconds < 6000
    ensures Split(seconds).0 < 100
  {
  }

  /** The position of the first occurrence of `c` in `t`. */
  function FirstIndex(t: string, c: char): (r: Option<nat>)
    ensures r.None? ==> c !in t
    ensures r.Some? ==> r.value < |t| && t[r.value] == c && c !in t[..r.value]
  {
    if t == [] then None
    else if t[0] == c then Some(0)
    else match FirstIndex(t[1..], c)
      case None => None
      case Some(i) => assert t[..i + 1] == [t[0]] + t[1..][..i]; Some(i + 1)
  }

  /** A field reads back as the number it shows. */
  lemma FieldValue(n: nat)
    ensures ParseDigits(Field(n)) == n
  {
    PadKeepsValue(Decimal(n));
    DecimalRoundTrip(n);
  }

  /** In digits, a colon, then anything, the first colon is the one after the digits. */
  lemma ColonAfterDigits(a: string, b: string)
    requires IsDigits(a)
    ensures FirstIndex(a + ":" + b, ':') == Some(|a|)
  {
    var t := a + ":" + b;
    var i := FirstIndex(t, ':');
    assert t[|a|] == ':';
    assert t[..|a|] == a;
  }

  /** Reads a display `M:S` with digit fields back into its minutes and seconds
      fields; the inverse of FormatTime. */
  function ReadFields(t: string): Option<(nat, nat)> {
    match FirstIndex(t, ':')
    case None => None
    case Some(i) =>
      var m, s := t[..i], t[i + 1..];
      if m != [] && s != [] && IsDigits(m) && IsDigits(s) then Some((ParseDigits(m), ParseDigits(s)))
      else None
  }

  /** Reading a formatted time gives back exactly the minutes and seconds it
      was built from: nothing is truncated and the fields are the quotient and
      remainder by 60. */
  lemma FormatTimeRoundTrip(seconds: nat)
    ensures ReadFields(FormatTime(seconds)) == Some(Split(seconds))
  {
    var f := Split(seconds);
    var a, b := Field(f.0), Field(f.1);
    FieldValue(f.0);
    FieldValue(f.1);
    ReadFieldsOfDisplay(a, b);
    assert FormatTime(seconds) == a + ":" + b;
  }

  /** Two digit fields around a colon read back as their values. */
  lemma ReadFieldsOfDisplay(a: string, b: string)
    requires IsDigits(a) && IsDigits(b) && a != [] && b != []
    ensures ReadFields(a + ":" + b) == Some((ParseDigits(a), ParseDigits(b)))
  {
    var t := a + ":" + b;
    ColonAfterDigits(a, b);
    assert t[..|a|] == a && t[|a| + 1..] == b;
  }

  /** The minutes and seconds fields of the display give back the elapsed
      seconds, and the seconds field is always below 60. */
  lemma FormatTimeFields(seconds: nat)
    ensures var f := ReadFields(FormatTime(seconds));
      f.Some? && f.value.1 < 60 && f.value.0 * 60 + f.value.1 == seconds
  {
    FormatTimeRoundTrip(seconds);
  }

  /** The initial display. */
  lemma FormatTimeZero()
    ensures FormatTime(0) == "00:00"
  {
    assert Decimal(0) == ['0'];
    assert PadStart(['0'], 2, '0') == ['0', '0'];
  }

  /** The `elapsedTime` state of the Timer component, and the
      `isSessionActive` value its effect last ran with. The interval that
      ticks the counter exists exactly while that value is true. */
  class ElapsedTimer {
    var sessionActive: bool
    var elapsedTime: nat

    /** A stopped timer reads zero. */
    ghost predicate Valid()
      reads this
    {
      !sessionActive ==> elapsedTime == 0
    }

    /** After mounting with an inactive session. */
    constructor ()
      ensures Valid() && !sessionActive && elapsedTime == 0
    {
      sessionActive, elapsedTime := false, 0;
    }

    /** The effect on a new `isSessionActive` value: becoming active starts the
        interval and keeps the count; becoming inactive clears the interval and
        resets the count to 0. An unchanged value does not re-run the effect. */
    method SessionActiveChanged(active: bool)
      requires Valid()
      modifies this
      ensures Valid() && sessionActive == active
      ensures active ==> elapsedTime == old(elapsedTime)
      ensures !active ==> elapsedTime == 0
    {
      if active == sessionActive {
        return;
      }
      sessionActive := active;
      if !active {
        elapsedTime := 0;
      }
    }

    /** One firing of the one-second interval. */
    method Tick()
      requires Valid() && sessionActive
      modifies this
      ensures Valid() && sessionActive
      ensures elapsedTime == old(elapsedTime) + 1
    {
      elapsedTime := elapsedTime + 1;
    }

    /** The rendered text, `formatTime(elapsedTime)`. */
    method Display() returns (text: string)
      requires Valid()
      ensures text == FormatTime(elapsedTime)
      ensures ReadFields(text) == Some(Split(elapsedTime))
      ensures elapsedTime < 6000 ==> |text| == 5 && text[2] == ':'
      ensures !sessionActive ==> text == "00:00"
    {
      text := FormatTime(elapsedTime);
      FormatTimeRoundTrip(elapsedTime);
      if elapsedTime < 6000 {
        FormatTimeWidth(elapsedTime);
      }
      if !sessionActive {
        FormatTimeZero();
      }
    }
  }
}
