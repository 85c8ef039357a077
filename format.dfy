/** `m:ss` rendering of a playback time given in whole seconds. */
module Format {
  import opened Base

  /** `s.padStart(2, '0')`. */
  function PadStart2(s: string): (r: string)
    ensures |s| >= 2 ==> r == s
    ensures |s| < 2 ==> |r| == 2 && r[2 - |s|..] == s && forall i :: 0 <= i < 2 - |s| ==> r[i] == '0'
  {
    if |s| >= 2 then s else if |s| == 1 then "0" + s else "00"
  }

  /**
   * `formatTime(seconds)`: floored minutes, then ':', then the truncated
   * remainder padded to two characters. Negative input keeps the signs of
   * JavaScript's floor and remainder. For a non-negative time the output
   * is the unpadded minutes, ':' and exactly two digits, and reading it
   * back gives the time.
   */
  function FormatTime(seconds: int): (r: string)
    ensures seconds >= 0 ==>
      |r| >= 4 && r[..|r| - 3] == NatToString(seconds / 60) && r[|r| - 3] == ':'
      && IsDigit(r[|r| - 2]) && IsDigit(r[|r| - 1])
    ensures seconds >= 0 ==> ParseTime(r) == Some(seconds)
  {
    var mins := seconds / 60;
    var secs := JsRem(seconds, 60);
    if seconds < 0 then
      IntToString(mins) + ":" + PadStart2(IntToString(secs))
    else
      var m: nat, sec: nat := mins, seconds % 60;
      var ms, p := NatToString(m), PadStart2(NatToString(sec));
      assert secs == sec && seconds == 60 * m + sec;
      assert IntToString(mins) + ":" + PadStart2(IntToString(secs)) == ms + ":" + p;
      SecondsField(sec);
      NatToStringValue(m);
      ReadBack(ms, p);
      assert ParseTime(ms + ":" + p) == Some(60 * DigitsValue(ms) + DigitsValue(p));
      IntToString(mins) + ":" + PadStart2(IntToString(secs))
  }

  /** Reads an `m:ss` text back: decimal minutes, ':', two decimal digits below 60. */
  function ParseTime(r: string): Option<nat>
  {
    if |r| >= 4 && r[|r| - 3] == ':' && (forall i :: 0 <= i < |r| && i != |r| - 3 ==> IsDigit(r[i])) then
      var secs := DigitsValue(r[|r| - 2..]);
      if secs < 60 then Some(60 * DigitsValue(r[..|r| - 3]) + secs) else None
    else None
  }

  /** The seconds field of a time: two digits whose value is the remainder. */
  lemma SecondsField(s: nat)
    requires s < 60
    ensures var p := PadStart2(NatToString(s));
      |p| == 2 && IsDigit(p[0]) && IsDigit(p[1]) && DigitsValue(p) == s
  {
    var ss := NatToString(s);
    if s >= 10 {
      assert ss == NatToString(s / 10) + [DigitChar(s % 10)];
    }
    NatToStringValue(s);
    PaddedValue(ss);
  }

  /** Minutes, ':' and a two-digit seconds field read back as their total. */
  lemma ReadBack(ms: string, p: string)
    requires ms != [] && forall i :: 0 <= i < |ms| ==> IsDigit(ms[i])
    requires |p| == 2 && IsDigit(p[0]) && IsDigit(p[1]) && DigitsValue(p) < 60
    ensures var r := ms + ":" + p;
      |r| >= 4 && r[..|r| - 3] == ms && r[|r| - 3] == ':' && IsDigit(r[|r| - 2]) && IsDigit(r[|r| - 1])
      && ParseTime(r) == Some(60 * DigitsValue(ms) + DigitsValue(p))
  {
    var r := ms + ":" + p;
    assert r[..|r| - 3] == ms;
    assert r[|r| - 2..] == p;
    forall i | 0 <= i < |r| && i != |r| - 3
      ensures IsDigit(r[i])
    {
      if i < |ms| {
        assert r[i] == ms[i];
      } else {
        assert r[i] == p[i - |ms| - 1];
      }
    }
  }

  /** Padding with zeros keeps the value of a one- or two-digit numeral. */
  lemma PaddedValue(ss: string)
    requires 1 <= |ss| <= 2 && forall i :: 0 <= i < |ss| ==> IsDigit(ss[i])
    ensures forall i :: 0 <= i < |PadStart2(ss)| ==> IsDigit(PadStart2(ss)[i])
    ensures DigitsValue(PadStart2(ss)) == DigitsValue(ss)
  {
    if |ss| == 1 {
      var p := PadStart2(ss);
      assert p[..1] == "0";
      assert DigitsValue(p[..1]) == 10 * DigitsValue([]) + 0;
      assert ss[..0] == [];
    }
  }

  /** Negative input is not clamped: minus five seconds prints as "-1:-5". */
  lemma NegativeTime()
    ensures FormatTime(-5) == "-1:-5"
  {
    assert JsRem(-5, 60) == -5;
    assert -5 / 60 == -1;
    assert IntToString(-1) == "-1" && IntToString(-5) == "-5";
  }
}
