/** `formatTime` of PlayerControls: seconds as `m:ss`, with JavaScript's number
    semantics for `Math.floor`, `%`, `toString` and `padStart` written out. */
module PlayerControls {
  import opened Music

  /** `Math.trunc`: rounds toward zero. */
  function Trunc(x: real): (r: int)
    ensures x >= 0.0 ==> r >= 0 && r as real <= x < r as real + 1.0
    ensures x < 0.0 ==> r <= 0 && r as real - 1.0 < x <= r as real
  {
    if x >= 0.0 then x.Floor else -((-x).Floor)
  }

  /** JavaScript's `x % m` on numbers: the remainder keeps the sign of the dividend. */
  function JsMod(x: real, m: real): real
    requires m > 0.0
  {
    x - m * (Trunc(x / m) as real)
  }

  function DigitChar(d: int): char
    requires 0 <= d < 10
  {
    "0123456789"[d]
  }

  predicate IsDigit(c: char)
  {
    '0' <= c <= '9'
  }

  predicate AllDigits(s: string)
  {
    forall k :: 0 <= k < |s| ==> IsDigit(s[k])
  }

  /** Decimal representation of a natural number, without leading zeros. */
  function NatToString(n: nat): (s: string)
    ensures |s| >= 1 && AllDigits(s)
    ensures n < 10 <==> |s| == 1
  {
    if n < 10 then [DigitChar(n)] else NatToString(n / 10) + [DigitChar(n % 10)]
  }

  /** `Number.prototype.toString` on an integer. */
  function IntToString(i: int): string
  {
    if i < 0 then "-" + NatToString(-i) else NatToString(i)
  }

  /** `padStart(2, '0')`. */
  function PadStart2(s: string): (r: string)
    ensures |s| >= 2 ==> r == s
    ensures |s| < 2 ==> |r| == 2 && r[2 - |s|..] == s
  {
    if |s| >= 2 then s else if |s| == 1 then "0" + s else "00"
  }

  /** `formatTime(time)`: `${Math.floor(time / 60)}:${Math.floor(time % 60).toString().padStart(2, '0')}`. */
  function FormatTime(time: real): string
  {
    var minutes := (time / 60.0).Floor;
    var seconds := PadStart2(IntToString(JsMod(time, 60.0).Floor));
    IntToString(minutes) + ":" + seconds
  }

  /** The value of a string of decimal digits. */
  function DigitsValue(s: string): int
    requires AllDigits(s)
  {
    if s == [] then 0 else DigitsValue(s[..|s| - 1]) * 10 + (s[|s| - 1] - '0') as int
  }

  /** Reads an `m:ss` display back as a number of whole seconds. */
  function ParseTime(s: string): Option<int>
  {
    if |s| < 4 || s[|s| - 3] != ':' || !AllDigits(s[..|s| - 3]) || !AllDigits(s[|s| - 2..]) then None
    else Some(DigitsValue(s[..|s| - 3]) * 60 + DigitsValue(s[|s| - 2..]))
  }

  /** The floor of x is the one integer k with k <= x < k + 1. */
  lemma FloorUnique(x: real, k: int)
    requires k as real <= x < k as real + 1.0
    ensures x.Floor == k
  {
  }

  /** Reading back the decimal digits of n gives n. */
  lemma {:induction false} DigitsRoundTrip(n: nat)
    ensures DigitsValue(NatToString(n)) == n
  {
    if n >= 10 {
      var s := NatToString(n);
      DigitsRoundTrip(n / 10);
      assert s[..|s| - 1] == NatToString(n / 10);
    }
  }

  /** For a time that is not negative, the minutes field is floor(t / 60) and the
      seconds field floor(t mod 60), a number in [0, 59]; together they give floor(t). */
  lemma {:induction false} Fields(t: real)
    requires t >= 0.0
    ensures var m := (t / 60.0).Floor;
            var sec := JsMod(t, 60.0).Floor;
            && m >= 0 && 0 <= sec <= 59
            && m * 60 + sec == t.Floor
            && FormatTime(t) == NatToString(m) + ":" + PadStart2(NatToString(sec))
  {
    var m := (t / 60.0).Floor;
    assert m as real <= t / 60.0 < m as real + 1.0;
    assert Trunc(t / 60.0) == m;
    var r := JsMod(t, 60.0);
    assert r == t - 60.0 * (m as real);
    assert 0.0 <= r < 60.0;
    assert t.Floor as real <= t < t.Floor as real + 1.0;
    FloorUnique(r, t.Floor - 60 * m);
  }

  /** A whole number of seconds in [0, 59] is shown as exactly two digits that read back as it. */
  lemma TwoDigitSeconds(sec: int)
    requires 0 <= sec <= 59
    ensures var s := PadStart2(NatToString(sec));
            |s| == 2 && AllDigits(s) && DigitsValue(s) == sec
  {
    var d := NatToString(sec);
    DigitsRoundTrip(sec);
    if sec < 10 {
      assert PadStart2(d) == "0" + d;
      assert ("0" + d)[..1] == "0";
    } else {
      assert NatToString(sec / 10) == d[..1];
      assert 1 <= sec / 10 < 6;
    }
  }

  /** An `m:ss` string built from digit strings is read back field by field. */
  lemma ParseJoined(ms: string, ss: string)
    requires |ms| >= 1 && AllDigits(ms) && |ss| == 2 && AllDigits(ss)
    ensures var s := ms + ":" + ss;
            && |s| >= 4 && s[|s| - 3] == ':'
            && s[..|s| - 3] == ms && s[|s| - 2..] == ss
            && ParseTime(s) == Some(DigitsValue(ms) * 60 + DigitsValue(ss))
  {
    var s := ms + ":" + ss;
    assert s[..|s| - 3] == ms;
    assert s[|s| - 2..] == ss;
  }

  /** For a time that is not negative, the display is the unpadded minutes, one ':',
      then exactly two digits of seconds. */
  lemma Shape(t: real)
    requires t >= 0.0
    ensures var s := FormatTime(t);
            && |s| >= 4 && s[|s| - 3] == ':'
            && AllDigits(s[..|s| - 3]) && AllDigits(s[|s| - 2..])
            && s[..|s| - 3] == NatToString((t / 60.0).Floor)
  {
    Fields(t);
    var m := (t / 60.0).Floor;
    var sec := JsMod(t, 60.0).Floor;
    TwoDigitSeconds(sec);
    ParseJoined(NatToString(m), PadStart2(NatToString(sec)));
    assert FormatTime(t) == NatToString(m) + ":" + PadStart2(NatToString(sec));
  }

  /** Reading the display back gives minutes * 60 + seconds = floor(t). */
  lemma RoundTrip(t: real)
    requires t >= 0.0
    ensures ParseTime(FormatTime(t)) == Some(t.Floor)
  {
    Fields(t);
    var m := (t / 60.0).Floor;
    var sec := JsMod(t, 60.0).Floor;
    TwoDigitSeconds(sec);
    DigitsRoundTrip(m);
    ParseJoined(NatToString(m), PadStart2(NatToString(sec)));
  }

  /** A negative time is shown with a minus sign, for example -30 seconds as "-1:-30". */
  lemma NegativeExample()
    ensures FormatTime(-30.0) == "-1:-30"
  {
    assert (-30.0 / 60.0).Floor == -1;
    assert Trunc(-30.0 / 60.0) == 0;
    assert JsMod(-30.0, 60.0) == -30.0;
    assert NatToString(30) == "30";
  }
}
