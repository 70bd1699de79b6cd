/** The match header's clock and current-over readouts. Both are computed
    from a whole number of elapsed seconds: the random start offset plus the
    one-second timer, which are parameters here. */
module MatchHeader {
  import opened Wrappers
  import opened Text
  import Helpers

  /** `Math.floor(Math.random() * 7200)` for the draw `r`. */
  function StartTimeOffset(r: real): int
  {
    (r * 7200.0).Floor
  }

  /** A draw in [0, 1) gives an offset of under two hours. */
  lemma {:induction false} StartTimeOffsetRange(r: real)
    requires 0.0 <= r < 1.0
    ensures 0 <= StartTimeOffset(r) < 7200
  {
    var f := (r * 7200.0).Floor;
    assert f as real <= r * 7200.0 < f as real + 1.0;
  }

  // ---------------------------------------------------------------------
  // formatTime

  datatype Clock = Clock(hrs: nat, mins: nat, secs: nat)

  /** The hours, minutes and seconds that `formatTime` computes: they add
      back up to `seconds`, and the minutes and seconds are below 60. */
  function ClockOf(seconds: nat): (c: Clock)
    ensures c.hrs * 3600 + c.mins * 60 + c.secs == seconds
    ensures c.mins < 60 && c.secs < 60
  {
    Clock(seconds / 3600, (seconds % 3600) / 60, seconds % 60)
  }

  /** No other split of `seconds` keeps the minutes and seconds below 60. */
  lemma {:induction false} ClockOfUnique(seconds: nat, c: Clock)
    requires c.hrs * 3600 + c.mins * 60 + c.secs == seconds
    requires c.mins < 60 && c.secs < 60
    ensures c == ClockOf(seconds)
  {
  }

  /** `s.padStart(2, '0')` */
  function PadStart2(s: string): (r: string)
    ensures |r| == if |s| < 2 then 2 else |s|
    ensures r[|r| - |s|..] == s
    ensures forall i :: 0 <= i < |r| - |s| ==> r[i] == '0'
  {
    if |s| == 0 then "00" else if |s| == 1 then "0" + s else s
  }

  /** `formatTime(seconds)`: "HH:MM:SS", each field padded to two digits. */
  function FormatTime(seconds: nat): string
  {
    var c := ClockOf(seconds);
    PadStart2(NatToString(c.hrs)) + ":" + PadStart2(NatToString(c.mins)) + ":" + PadStart2(NatToString(c.secs))
  }

  /** Reads "H:M:S" (digits only, any widths) back as a number of seconds. */
  function ReadClock(text: string): Option<nat>
  {
    var p := Split(text, ':');
    if |p| == 3 && AllDigits(p[0]) && AllDigits(p[1]) && AllDigits(p[2]) then
      Some(DigitsValue(p[0]) * 3600 + DigitsValue(p[1]) * 60 + DigitsValue(p[2]))
    else None
  }

  lemma {:induction false} DigitsValueLeadingZero(s: string)
    requires AllDigits(s)
    ensures AllDigits("0" + s) && DigitsValue("0" + s) == DigitsValue(s)
    decreases |s|
  {
    if s != [] {
      var t := "0" + s;
      assert t[..|t| - 1] == "0" + s[..|s| - 1];
      DigitsValueLeadingZero(s[..|s| - 1]);
    }
  }

  /** A padded number is digits reading back as the number. */
  lemma {:induction false} PaddedNumber(n: nat)
    ensures AllDigits(PadStart2(NatToString(n))) && ':' !in PadStart2(NatToString(n))
    ensures DigitsValue(PadStart2(NatToString(n))) == n
  {
    DigitsValueOfNatToString(n);
    if |NatToString(n)| == 1 {
      DigitsValueLeadingZero(NatToString(n));
    }
  }

  /** A two-digit number renders in at most two characters, a larger one
      in more. */
  lemma {:induction false} NatToStringAtMostTwo(n: nat)
    ensures |NatToString(n)| <= 2 <==> n < 100
  {
    if n >= 10 {
      var q := n / 10;
      assert NatToString(n) == NatToString(q) + [DigitChar(n % 10)];
      if q >= 10 {
        assert |NatToString(q)| == |NatToString(q / 10)| + 1;
      }
    }
  }

  /** Three fields of digits joined by ':' split back into those fields. */
  lemma {:induction false} SplitFields(h: string, m: string, s: string)
    requires ':' !in h && ':' !in m && ':' !in s
    ensures Split(h + ":" + m + ":" + s, ':') == [h, m, s]
  {
    assert h + ":" + m + ":" + s == h + ":" + (m + ":" + s);
    SplitAt(h, ':', m + ":" + s);
    SplitAt(m, ':', s);
    SplitNone(s, ':');
  }

  /** Three digit fields joined by ':' read back as their clock value. */
  lemma {:induction false} ReadClockOfFields(h: string, m: string, s: string)
    requires AllDigits(h) && AllDigits(m) && AllDigits(s)
    requires ':' !in h && ':' !in m && ':' !in s
    ensures ReadClock(h + ":" + m + ":" + s) == Some(DigitsValue(h) * 3600 + DigitsValue(m) * 60 + DigitsValue(s))
  {
    SplitFields(h, m, s);
  }

  /** The clock text reads back as the seconds it was made from. */
  lemma {:induction false} FormatTimeRoundTrip(seconds: nat)
    ensures ReadClock(FormatTime(seconds)) == Some(seconds)
  {
    var c := ClockOf(seconds);
    var h, m, s := PadStart2(NatToString(c.hrs)), PadStart2(NatToString(c.mins)), PadStart2(NatToString(c.secs));
    PaddedNumber(c.hrs);
    PaddedNumber(c.mins);
    PaddedNumber(c.secs);
    ReadClockOfFields(h, m, s);
  }

  /** The three fields are joined by ':'; minutes and seconds are exactly two
      digits, and the hours are at least two and run past two exactly from
      100 hours on. */
  lemma {:induction false} FormatTimeFields(seconds: nat)
    ensures var p := Split(FormatTime(seconds), ':');
      && |p| == 3 && AllDigits(p[0]) && AllDigits(p[1]) && AllDigits(p[2])
      && |p[1]| == 2 && |p[2]| == 2 && |p[0]| >= 2
      && (|p[0]| == 2 <==> seconds < 360000)
  {
    var c := ClockOf(seconds);
    var h, m, s := PadStart2(NatToString(c.hrs)), PadStart2(NatToString(c.mins)), PadStart2(NatToString(c.secs));
    PaddedNumber(c.hrs);
    PaddedNumber(c.mins);
    PaddedNumber(c.secs);
    NatToStringAtMostTwo(c.hrs);
    NatToStringAtMostTwo(c.mins);
    NatToStringAtMostTwo(c.secs);
    SplitFields(h, m, s);
    assert c.hrs < 100 <==> seconds < 360000;
  }

  // ---------------------------------------------------------------------
  // getCurrentOver

  /** A position in the innings: whole overs and balls into the next. */
  datatype OverPosition = OverPosition(overs: nat, balls: nat)

  /** `getCurrentOver()` before formatting, at four minutes an over and
      forty seconds a ball: the position whose ball started last. */
  function CurrentOver(totalSeconds: nat): (p: OverPosition)
    ensures p.balls <= 5
    ensures p.overs * 240 + p.balls * 40 <= totalSeconds < p.overs * 240 + (p.balls + 1) * 40
  {
    OverPosition(totalSeconds / 240, (totalSeconds % 240) / 40)
  }

  /** `getCurrentOver()`: "<overs>.<balls>", neither padded. */
  function OverText(totalSeconds: nat): string
  {
    var p := CurrentOver(totalSeconds);
    NatToString(p.overs) + "." + NatToString(p.balls)
  }

  /** The position counts the balls that have started: six per over. */
  lemma {:induction false} CurrentOverBallCount(totalSeconds: nat)
    ensures var p := CurrentOver(totalSeconds); p.overs * 6 + p.balls == totalSeconds / 40
  {
    var p := CurrentOver(totalSeconds);
    var k := p.overs * 6 + p.balls;
    assert k * 40 <= totalSeconds < k * 40 + 40;
  }

  /** The position never goes back as the total seconds it is given grow:
      (overs, balls) grows lexicographically. */
  lemma {:induction false} CurrentOverMonotone(t1: nat, t2: nat)
    requires t1 <= t2
    ensures var p, q := CurrentOver(t1), CurrentOver(t2);
      p.overs < q.overs || (p.overs == q.overs && p.balls <= q.balls)
  {
    CurrentOverBallCount(t1);
    CurrentOverBallCount(t2);
    var p, q := CurrentOver(t1), CurrentOver(t2);
    assert t1 / 40 <= t2 / 40;
  }

  /** The over text reads back, through the overs helper, as the position:
      six times its value is the number of balls started. */
  lemma {:induction false} OverTextAsOvers(totalSeconds: nat)
    ensures var p := CurrentOver(totalSeconds);
      Helpers.ParseOvers(Some(OverText(totalSeconds))) == p.overs as real + p.balls as real / 6.0
    ensures 6.0 * Helpers.ParseOvers(Some(OverText(totalSeconds))) == (totalSeconds / 40) as real
  {
    var p := CurrentOver(totalSeconds);
    Helpers.ParseOversOfNotation(p.overs, p.balls);
    CurrentOverBallCount(totalSeconds);
  }
}
