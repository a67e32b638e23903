/** The file facts the main process reports (src/main/services/FileService.js):
    the duration as a clock string, the has-a-video-stream validation and
    the resolution string of `getVideoInfo`. */
module FileInfo {
  import opened Wrappers
  import opened Text
  import opened Probe

  // ---------------------------------------------------------------------
  // formatDuration

  /** JavaScript's `%` on numbers: the remainder of the quotient truncated
      toward zero, so it takes the sign of `x`. */
  function JsRem(x: real, m: real): (r: real)
    requires m > 0.0
    ensures x >= 0.0 ==> 0.0 <= r < m
    ensures x <= 0.0 ==> -m < r <= 0.0
  {
    var q := x / m;
    var t := if q >= 0.0 then q.Floor else -((-q).Floor);
    TruncatedRemainder(x, m, t);
    x - m * t as real
  }

  /** The remainder of the truncated quotient `t` lies between 0 and `m`
      on the side of `x`'s sign. */
  lemma TruncatedRemainder(x: real, m: real, t: int)
    requires m > 0.0
    requires t == if x / m >= 0.0 then (x / m).Floor else -((-(x / m)).Floor)
    ensures x >= 0.0 ==> 0.0 <= x - m * t as real < m
    ensures x <= 0.0 ==> -m < x - m * t as real <= 0.0
  {
    var q := x / m;
    var tr := t as real;
    Offset(x, m, tr);
    if q >= 0.0 {
      FractionOf(x - m * tr, m, q - tr);
    } else {
      FractionOf(m * tr - x, m, tr - q);
    }
  }

  /** The remainder `x - m*t` as a multiple of `m`, and the sign of `x / m`. */
  lemma Offset(x: real, m: real, tr: real)
    requires m > 0.0
    ensures x - m * tr == m * (x / m - tr)
    ensures m * tr - x == m * (tr - x / m)
    ensures x >= 0.0 <==> x / m >= 0.0
  {
  }

  /** A fraction `d` in [0, 1) of a positive `m` is in [0, m). */
  lemma FractionOf(y: real, m: real, d: real)
    requires m > 0.0 && 0.0 <= d < 1.0 && y == m * d
    ensures 0.0 <= y < m
  {
    NonNegative(m, d);
    Positive(m, 1.0 - d);
    assert m * (1.0 - d) == m - m * d;
  }

  /** The product of two non-negative numbers is non-negative. */
  lemma NonNegative(a: real, b: real)
    requires a >= 0.0 && b >= 0.0
    ensures a * b >= 0.0
  {
  }

  /** The product of two positive numbers is positive. */
  lemma Positive(a: real, b: real)
    requires a > 0.0 && b > 0.0
    ensures a * b > 0.0
  {
  }

  /** `Math.floor(seconds / 3600)`. */
  function Hours(s: real): (h: int)
    ensures s >= 0.0 ==> h >= 0 && (h > 0 <==> s >= 3600.0)
  {
    (s / 3600.0).Floor
  }

  /** `Math.floor((seconds % 3600) / 60)`. */
  function Minutes(s: real): (m: int)
    ensures s >= 0.0 ==> 0 <= m < 60
  {
    (JsRem(s, 3600.0) / 60.0).Floor
  }

  /** `Math.floor(seconds % 60)`. */
  function Seconds(s: real): (sec: int)
    ensures s >= 0.0 ==> 0 <= sec < 60
  {
    JsRem(s, 60.0).Floor
  }

  /** `formatDuration`: "Unknown" for an undefined, NaN (None) or zero
      duration; otherwise `H:MM:SS` from one hour on and `M:SS` below it,
      the minutes of the short form not padded. */
  function FormatDuration(seconds: Option<real>): (r: string)
    ensures r == "Unknown" <==> seconds.None? || seconds.value == 0.0
  {
    if seconds.None? || seconds.value == 0.0 then "Unknown"
    else
      var s := seconds.value;
      var text :=
        if Hours(s) > 0 then IntToString(Hours(s)) + ":" + PadStart2(IntToString(Minutes(s))) + ":" + PadStart2(IntToString(Seconds(s)))
        else IntToString(Minutes(s)) + ":" + PadStart2(IntToString(Seconds(s)));
      assert text[0] != 'U';
      text
  }

  /** The reading of a clock string that `FormatDurationRoundTrip` checks
      against: `H:MM:SS` or `M:SS` back to whole seconds. */
  function ParseClock(t: string): (r: Option<nat>)
    ensures var parts := Split(t, ':');
            r.Some? <==> (|parts| == 2 || |parts| == 3) && forall i :: 0 <= i < |parts| ==> ParseNat(parts[i]).Some?
  {
    var parts := Split(t, ':');
    if |parts| == 3 then
      match (ParseNat(parts[0]), ParseNat(parts[1]), ParseNat(parts[2]))
      case (Some(h), Some(m), Some(s)) => Some(h * 3600 + m * 60 + s)
      case _ => None
    else if |parts| == 2 then
      match (ParseNat(parts[0]), ParseNat(parts[1]))
      case (Some(m), Some(s)) => Some(m * 60 + s)
      case _ => None
    else None
  }

  /** For a non-negative duration the hours, minutes and seconds add up to
      the duration with its fraction dropped. */
  lemma DurationFields(s: real)
    requires s >= 0.0
    ensures Hours(s) * 3600 + Minutes(s) * 60 + Seconds(s) == s.Floor
  {
    HoursOf(s);
    MinutesOf(s);
    SecondsOf(s);
    ClockSum(s.Floor);
  }

  /** Hours, minutes and seconds of a whole number of seconds add back up to it. */
  lemma ClockSum(n: int)
    requires n >= 0
    ensures (n / 3600) * 3600 + ((n % 3600) / 60) * 60 + n % 60 == n
  {
    var r := n % 3600;
    assert n == 3600 * (n / 3600) + r;
    assert r == 60 * (r / 60) + r % 60;
    assert n % 60 == r % 60 by {
      assert n == 60 * (60 * (n / 3600) + r / 60) + r % 60;
    }
  }

  /** The hours field on whole seconds. */
  lemma HoursOf(s: real)
    requires s >= 0.0
    ensures Hours(s) == s.Floor / 3600
  {
    FloorDivide(s, 3600);
  }

  /** The minutes field on whole seconds. */
  lemma MinutesOf(s: real)
    requires s >= 0.0
    ensures Minutes(s) == (s.Floor % 3600) / 60
  {
    var n := s.Floor;
    FloorDivide(s, 3600);
    var h := (s / 3600.0).Floor;
    var rest := JsRem(s, 3600.0);
    assert rest == s - 3600.0 * h as real;
    FloorShift(s, 3600 * h);
    FloorDivide(rest, 60);
  }

  /** The seconds field on whole seconds. */
  lemma SecondsOf(s: real)
    requires s >= 0.0
    ensures Seconds(s) == s.Floor % 60
  {
    FloorDivide(s, 60);
    var k := (s / 60.0).Floor;
    assert JsRem(s, 60.0) == s - 60.0 * k as real;
    FloorShift(s, 60 * k);
  }

  /** `Math.floor(x / m)` of a non-negative `x` is the integer quotient of
      `Math.floor(x)` by `m`. */
  lemma FloorDivide(x: real, m: nat)
    requires x >= 0.0 && m > 0
    ensures x / m as real >= 0.0
    ensures (x / m as real).Floor == x.Floor / m
  {
    var n := x.Floor;
    var q := n / m;
    var mr := m as real;
    var y := x / mr;
    DivTimes(x, mr);
    assert q * m <= n && n + 1 <= (q + 1) * m;
    // q*m <= n <= x == y*m
    CastProduct(q, m);
    assert (q * m) as real <= x;
    assert q as real * mr <= y * mr;
    // y*m == x < n + 1 <= (q+1)*m
    CastProduct(q + 1, m);
    assert x < ((q + 1) * m) as real;
    assert y * mr < (q + 1) as real * mr;
    ScaledOrder(q as real, y, mr);
    ScaledOrder(y, (q + 1) as real, mr);
  }

  /** Dividing by a non-zero factor and multiplying back gives the original. */
  lemma DivTimes(x: real, m: real)
    requires m != 0.0
    ensures (x / m) * m == x
  {
  }

  /** The product of two integers converts to the product of their reals. */
  lemma CastProduct(a: int, b: int)
    ensures (a * b) as real == a as real * b as real
  {
  }

  /** Dividing both sides by a positive factor keeps their order. */
  lemma ScaledOrder(a: real, b: real, m: real)
    requires m > 0.0
    ensures a * m <= b * m ==> a <= b
    ensures a * m < b * m ==> a < b
  {
  }

  /** Removing a whole number moves the floor by that number. */
  lemma FloorShift(x: real, k: int)
    ensures (x - k as real).Floor == x.Floor - k
  {
  }

  /** The clock string reads back as the duration's whole seconds, with
      three fields from one hour on and two below, the padded fields two
      digits wide. */
  lemma FormatDurationRoundTrip(s: real)
    requires s > 0.0
    ensures var parts := Split(FormatDuration(Some(s)), ':');
            |parts| == (if s >= 3600.0 then 3 else 2)
            && |parts[|parts| - 1]| == 2
            && (s >= 3600.0 ==> |parts[1]| == 2)
    ensures ParseClock(FormatDuration(Some(s))) == Some(s.Floor)
  {
    DurationFields(s);
    var h, m, sec := Hours(s), Minutes(s), Seconds(s);
    if h > 0 {
      assert FormatDuration(Some(s)) == IntToString(h) + ":" + PadStart2(IntToString(m)) + ":" + PadStart2(IntToString(sec));
      LongClock(h, m, sec);
    } else {
      assert FormatDuration(Some(s)) == IntToString(m) + ":" + PadStart2(IntToString(sec));
      ShortClock(m, sec);
    }
  }

  /** `H:MM:SS` splits into its three fields and reads back as seconds. */
  lemma LongClock(h: nat, m: nat, sec: nat)
    requires m < 60 && sec < 60
    ensures var t := IntToString(h) + ":" + PadStart2(IntToString(m)) + ":" + PadStart2(IntToString(sec));
            var parts := Split(t, ':');
            |parts| == 3 && |parts[1]| == 2 && |parts[2]| == 2
            && ParseClock(t) == Some(h * 3600 + m * 60 + sec)
  {
    var hs, ms, ss := NatToString(h), PadStart2(NatToString(m)), PadStart2(NatToString(sec));
    PaddedRoundTrip(m);
    PaddedRoundTrip(sec);
    NatToStringRoundTrip(h);
    DigitsAvoid(hs, ':');
    DigitsAvoid(ms, ':');
    DigitsAvoid(ss, ':');
    assert Join([ms, ss], ':') == ms + ":" + ss;
    assert [hs, ms, ss][1..] == [ms, ss];
    assert hs + ":" + ms + ":" + ss == Join([hs, ms, ss], ':');
    SplitJoin([hs, ms, ss], ':');
  }

  /** `M:SS` splits into its two fields and reads back as seconds. */
  lemma ShortClock(m: nat, sec: nat)
    requires sec < 60
    ensures var t := IntToString(m) + ":" + PadStart2(IntToString(sec));
            var parts := Split(t, ':');
            |parts| == 2 && |parts[1]| == 2
            && ParseClock(t) == Some(m * 60 + sec)
  {
    var ms, ss := NatToString(m), PadStart2(NatToString(sec));
    PaddedRoundTrip(sec);
    NatToStringRoundTrip(m);
    DigitsAvoid(ms, ':');
    DigitsAvoid(ss, ':');
    assert ms + ":" + ss == Join([ms, ss], ':');
    SplitJoin([ms, ss], ':');
  }

  /** An hour, two minutes and five and a half seconds. */
  lemma LongDurationExample()
    ensures FormatDuration(Some(3725.5)) == "1:02:05"
  {
    assert Hours(3725.5) == 1 && Minutes(3725.5) == 2 && Seconds(3725.5) == 5;
  }

  /** A minute less a tenth of a second: no hour field, minutes unpadded. */
  lemma ShortDurationExample()
    ensures FormatDuration(Some(59.9)) == "0:59"
  {
    assert Hours(59.9) == 0 && Minutes(59.9) == 0 && Seconds(59.9) == 59;
  }

  /** A negative duration: the fields take the sign of the remainder. */
  lemma NegativeDurationExample()
    ensures FormatDuration(Some(-5.0)) == "-1:-5"
  {
    assert Hours(-5.0) == -1 && Minutes(-5.0) == -1 && Seconds(-5.0) == -5;
  }

  /** A decimal numeral holds no character other than digits. */
  lemma DigitsAvoid(s: string, c: char)
    requires ParseNat(s).Some? && !IsDigit(c)
    ensures c !in s
  {
  }

  // ---------------------------------------------------------------------
  // validateVideoFile and the resolution string

  /** `validateVideoFile`: whether some stream is a video stream; false
      when the probe fails. */
  function ValidateVideoFile(probe: ProbeResult): (valid: bool)
    ensures valid <==> probe.Success? && exists i :: 0 <= i < |probe.value.streams| && IsVideo(probe.value.streams[i])
  {
    match probe
    case Failure(_) => false
    case Success(metadata) => exists i :: 0 <= i < |metadata.streams| && IsVideo(metadata.streams[i])
  }

  /** A file is valid exactly when `getVideoInfo` and the video job find a
      video stream in it. */
  lemma ValidIffVideoStreamFound(probe: ProbeResult)
    ensures ValidateVideoFile(probe) <==> probe.Success? && FindVideoStream(probe.value.streams).Some?
  {
  }

  /** `getVideoInfo` ends in its catch block: `fs.stat` rejected (`statOk`
      false), the probe failed, the format has no `format_name`, or the
      video stream has no `codec_name` (each `.toUpperCase()` throws). */
  predicate InfoFails(statOk: bool, probe: ProbeResult) {
    !statOk || probe.Failure? || probe.value.formatName.None?
    || (FindVideoStream(probe.value.streams).Some? && FindVideoStream(probe.value.streams).value.codecName.None?)
  }

  /** The `resolution` field of `getVideoInfo`: `WxH` of the first video
      stream; "Unknown" without one, or from the catch block. */
  function Resolution(statOk: bool, probe: ProbeResult): (r: string)
    ensures r == "Unknown" <==> InfoFails(statOk, probe) || FindVideoStream(probe.value.streams).None?
    ensures r != "Unknown" ==> 'x' in r
  {
    if InfoFails(statOk, probe) then "Unknown"
    else
      match FindVideoStream(probe.value.streams)
      case None => "Unknown"
      case Some(v) =>
        var text := NatToString(v.width) + "x" + NatToString(v.height);
        assert text[|NatToString(v.width)|] == 'x';
        assert text[0] != 'U';
        text
  }

  /** The resolution string splits at its one `x` into the stream's width
      and height. */
  lemma ResolutionFields(statOk: bool, probe: ProbeResult)
    requires !InfoFails(statOk, probe) && FindVideoStream(probe.value.streams).Some?
    ensures var v := FindVideoStream(probe.value.streams).value;
            var parts := Split(Resolution(statOk, probe), 'x');
            |parts| == 2 && ParseNat(parts[0]) == Some(v.width) && ParseNat(parts[1]) == Some(v.height)
  {
    var v := FindVideoStream(probe.value.streams).value;
    var w, h := NatToString(v.width), NatToString(v.height);
    NatToStringRoundTrip(v.width);
    NatToStringRoundTrip(v.height);
    DigitsAvoid(w, 'x');
    DigitsAvoid(h, 'x');
    assert Resolution(statOk, probe) == Join([w, h], 'x');
    SplitJoin([w, h], 'x');
  }
}
