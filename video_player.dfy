/** The custom video player's control state (src/components/ui/custom-video-player.tsx):
    `formatTime`, the volume icon, and the handlers that keep the state in step with the
    video element. Times and fractions are exact reals; the non-finite values the element
    can report are explicit. */
module VideoPlayer {
  import opened Common

  /** A JavaScript number as far as this component can see: a finite value, an infinity, or
      NaN. */
  datatype Number = NaN | PosInf | NegInf | Finite(value: real)

  predicate IsIntegral(x: Number) {
    x.Finite? ==> x.value == x.value.Floor as real
  }

  /** `x / d` for a positive finite divisor. */
  function DivBy(x: Number, d: real): Number
    requires d > 0.0
  {
    match x
    case Finite(r) => Finite(r / d)
    case _ => x
  }

  /** `Math.floor(x)` */
  function Floor(x: Number): (r: Number)
    ensures IsIntegral(r)
  {
    match x
    case Finite(r) => Finite(r.Floor as real)
    case _ => x
  }

  /** `x % m` for a positive finite `m`: the remainder takes the dividend's sign, and an
      infinite dividend gives NaN. */
  function Rem(x: Number, m: real): Number
    requires m > 0.0
  {
    match x
    case Finite(r) =>
      var q := r / m;
      var trunc := if q >= 0.0 then q.Floor else -((-q).Floor);
      Finite(r - m * trunc as real)
    case _ => NaN
  }

  function DigitChar(d: int): char
    requires 0 <= d < 10
  {
    ('0' as int + d) as char
  }

  /** The decimal digits of `n`, most significant first, without leading zeros. */
  function NatToString(n: nat): (s: string)
    ensures |s| >= 1
  {
    if n < 10 then [DigitChar(n)] else NatToString(n / 10) + [DigitChar(n % 10)]
  }

  /** `String(x)` for an integral number. */
  function IntegralToString(x: Number): string
    requires IsIntegral(x)
  {
    match x
    case NaN => "NaN"
    case PosInf => "Infinity"
    case NegInf => "-Infinity"
    case Finite(r) => if r < 0.0 then "-" + NatToString(-(r.Floor)) else NatToString(r.Floor)
  }

  /** `s.padStart(n, c)` for a one-character `c`. */
  function PadStart(s: string, n: nat, c: char): (r: string)
    decreases n - |s|
  {
    if |s| >= n then s else PadStart([c] + s, n, c)
  }

  /** `formatTime(time)` */
  function FormatTime(time: Number): string {
    if time.NaN? then "00:00"
    else
      var minutes := Floor(DivBy(time, 60.0));
      var seconds := Floor(Rem(time, 60.0));
      PadStart(IntegralToString(minutes), 2, '0') + ":" + PadStart(IntegralToString(seconds), 2, '0')
  }

  predicate IsDigits(s: string) {
    forall i :: 0 <= i < |s| ==> '0' <= s[i] <= '9'
  }

  /** The number a string of decimal digits denotes. */
  function DigitsValue(s: string): nat
    requires IsDigits(s)
  {
    if s == [] then 0 else DigitsValue(s[..|s| - 1]) * 10 + (s[|s| - 1] as int - '0' as int)
  }

  lemma {:induction false} NatToStringRoundTrip(n: nat)
    ensures IsDigits(NatToString(n)) && DigitsValue(NatToString(n)) == n
  {
    if n >= 10 {
      NatToStringRoundTrip(n / 10);
      var s := NatToString(n);
      assert s[..|s| - 1] == NatToString(n / 10);
    }
  }

  lemma {:induction false} LeadingZeroKeepsValue(s: string)
    requires IsDigits(s)
    ensures IsDigits("0" + s) && DigitsValue("0" + s) == DigitsValue(s)
  {
    if s != [] {
      assert ("0" + s)[..|"0" + s| - 1] == "0" + s[..|s| - 1];
      LeadingZeroKeepsValue(s[..|s| - 1]);
    }
  }

  /** A clock field: `n` written in decimal and padded with zeros to two digits. */
  function ClockField(n: nat): string {
    PadStart(NatToString(n), 2, '0')
  }

  /** A clock field is all digits, at least two of them, denotes `n` exactly (nothing is cut
      off), and is exactly two digits long below 100. */
  lemma ClockFieldIsExact(n: nat)
    ensures IsDigits(ClockField(n)) && |ClockField(n)| >= 2 && DigitsValue(ClockField(n)) == n
    ensures n < 100 ==> |ClockField(n)| == 2
  {
    NatToStringRoundTrip(n);
    var s := NatToString(n);
    if |s| < 2 {
      assert |s| == 1;
      LeadingZeroKeepsValue(s);
      assert PadStart(s, 2, '0') == PadStart(['0'] + s, 2, '0');
      assert ClockField(n) == "0" + s;
    } else if n < 100 {
      assert n >= 10;
      assert NatToString(n / 10) == [DigitChar(n / 10)];
    }
  }

  lemma SecondsBounds(t: real)
    requires t >= 0.0
    ensures 0 <= (t - 60.0 * (t / 60.0).Floor as real).Floor < 60
  {
    var m := (t / 60.0).Floor;
    assert m as real <= t / 60.0 < m as real + 1.0;
    assert 0.0 <= t - 60.0 * m as real < 60.0;
  }

  /** For a time of zero or more seconds, `formatTime` gives MM:SS: the whole minutes and
      the whole seconds past the minute, each padded to two digits. */
  lemma FormatTimeIsClock(t: real)
    requires t >= 0.0
    ensures var m := (t / 60.0).Floor;
            var s := (t - 60.0 * m as real).Floor;
            && 0 <= m && 0 <= s < 60
            && FormatTime(Finite(t)) == ClockField(m) + ":" + ClockField(s)
  {
    var m := (t / 60.0).Floor;
    SecondsBounds(t);
    var q := t / 60.0;
    assert q >= 0.0;
    assert Rem(Finite(t), 60.0) == Finite(t - 60.0 * m as real);
  }

  /** Before the metadata is loaded the duration is NaN, and it shows as "00:00". */
  lemma FormatTimeOfNaN()
    ensures FormatTime(NaN) == "00:00"
  {
  }

  datatype VolumeIcon = VolumeX | Volume1 | Volume2

  /** The icon of the volume button. */
  function IconFor(isMuted: bool, volume: real): (icon: VolumeIcon)
    ensures icon == VolumeX <==> isMuted
    ensures icon == Volume2 <==> !isMuted && volume > 0.5
    ensures icon == Volume1 <==> !isMuted && volume <= 0.5
  {
    if isMuted then VolumeX else if volume > 0.5 then Volume2 else Volume1
  }

  /** `(currentTime / duration) * 100` for a finite, non-negative current time. */
  function ProgressOf(currentTime: real, duration: Number): Number
    requires currentTime >= 0.0
  {
    match duration
    case Finite(d) =>
      if d != 0.0 then Finite(currentTime / d * 100.0)
      else if currentTime == 0.0 then NaN
      else PosInf
    case PosInf => Finite(0.0)
    case NegInf => Finite(0.0)
    case NaN => NaN
  }

  /** The component's state, and the three properties of the video element its handlers
      write: the element's current time, volume and muted flag. */
  class Player {
    var isPlaying: bool
    var isMuted: bool
    var volume: real
    var progress: Number
    var currentTime: real
    var duration: Number
    var videoCurrentTime: real
    var videoVolume: real
    var videoMuted: bool

    constructor()
      ensures !isPlaying && !isMuted && volume == 1.0 && progress == Finite(0.0)
      ensures currentTime == 0.0 && duration == Finite(0.0)
      ensures videoCurrentTime == 0.0 && videoVolume == 1.0 && !videoMuted
    {
      isPlaying := false;
      isMuted := false;
      volume := 1.0;
      progress := Finite(0.0);
      currentTime := 0.0;
      duration := Finite(0.0);
      videoCurrentTime := 0.0;
      videoVolume := 1.0;
      videoMuted := false;
    }

    /** 'timeupdate', with the element's current time and duration: nothing changes while
        the duration is NaN; otherwise the time is copied and the progress is the percentage
        of the duration. */
    method OnTimeUpdate(time: real, videoDuration: Number)
      requires time >= 0.0
      modifies this
      ensures videoDuration.NaN? ==> currentTime == old(currentTime) && progress == old(progress)
      ensures !videoDuration.NaN? ==> currentTime == time && progress == ProgressOf(time, videoDuration)
      ensures isPlaying == old(isPlaying) && isMuted == old(isMuted) && volume == old(volume)
      ensures duration == old(duration) && videoCurrentTime == old(videoCurrentTime)
      ensures videoVolume == old(videoVolume) && videoMuted == old(videoMuted)
    {
      if !videoDuration.NaN? {
        currentTime := time;
        progress := ProgressOf(time, videoDuration);
      }
    }

    /** 'loadedmetadata' */
    method OnLoadedMetadata(videoDuration: Number)
      modifies this
      ensures duration == videoDuration
      ensures isPlaying == old(isPlaying) && isMuted == old(isMuted) && volume == old(volume)
      ensures progress == old(progress) && currentTime == old(currentTime)
      ensures videoCurrentTime == old(videoCurrentTime) && videoVolume == old(videoVolume)
      ensures videoMuted == old(videoMuted)
    {
      duration := videoDuration;
    }

    /** 'play' and 'pause' */
    method OnPlayOrPause(playing: bool)
      modifies this
      ensures isPlaying == playing
      ensures isMuted == old(isMuted) && volume == old(volume) && progress == old(progress)
      ensures currentTime == old(currentTime) && duration == old(duration)
      ensures videoCurrentTime == old(videoCurrentTime) && videoVolume == old(videoVolume)
      ensures videoMuted == old(videoMuted)
    {
      isPlaying := playing;
    }

    /** 'ended': stopped, and back at the start. */
    method OnEnded()
      modifies this
      ensures !isPlaying && progress == Finite(0.0) && currentTime == 0.0
      ensures isMuted == old(isMuted) && volume == old(volume) && duration == old(duration)
      ensures videoCurrentTime == old(videoCurrentTime) && videoVolume == old(videoVolume)
      ensures videoMuted == old(videoMuted)
    {
      isPlaying := false;
      progress := Finite(0.0);
      currentTime := 0.0;
    }

    /** 'volumechange': the state takes the element's muted flag and volume. */
    method OnVolumeChange()
      modifies this
      ensures isMuted == videoMuted && volume == videoVolume
      ensures isPlaying == old(isPlaying) && progress == old(progress)
      ensures currentTime == old(currentTime) && duration == old(duration)
      ensures videoCurrentTime == old(videoCurrentTime)
      ensures videoVolume == old(videoVolume) && videoMuted == old(videoMuted)
    {
      isMuted := videoMuted;
      volume := videoVolume;
    }

    /** `handleProgressChange` with the slider's percentage: ignored while the duration is
        NaN or 0; with a finite duration the element seeks to that percentage of it and the
        progress takes the slider's value. A non-finite target (an infinite duration) is
        refused by the element, which throws before the progress is set. It returns the
        time it seeks to, if any. */
    method HandleProgressChange(value: real) returns (seek: Option<real>)
      requires 0.0 <= value <= 100.0
      modifies this
      ensures seek.Some? <==> duration.Finite? && duration.value != 0.0
      ensures seek.Some? ==> seek.value == value / 100.0 * duration.value
                             && videoCurrentTime == seek.value && progress == Finite(value)
      ensures seek.None? ==> videoCurrentTime == old(videoCurrentTime) && progress == old(progress)
      ensures isPlaying == old(isPlaying) && isMuted == old(isMuted) && volume == old(volume)
      ensures currentTime == old(currentTime) && duration == old(duration)
      ensures videoVolume == old(videoVolume) && videoMuted == old(videoMuted)
    {
      if duration.NaN? || duration == Finite(0.0) {
        return None;
      }
      if !duration.Finite? {
        return None;
      }
      var newTime := value / 100.0 * duration.value;
      videoCurrentTime := newTime;
      progress := Finite(value);
      seek := Some(newTime);
    }

    /** `handleVolumeChange` with the slider's value in [0, 1]: the element takes the volume,
        and is muted exactly when it is 0. The state follows through 'volumechange'. */
    method HandleVolumeChange(value: real)
      requires 0.0 <= value <= 1.0
      modifies this
      ensures videoVolume == value && (videoMuted <==> value == 0.0)
      ensures isPlaying == old(isPlaying) && isMuted == old(isMuted) && volume == old(volume)
      ensures progress == old(progress) && currentTime == old(currentTime)
      ensures duration == old(duration) && videoCurrentTime == old(videoCurrentTime)
    {
      videoVolume := value;
      videoMuted := value == 0.0;
    }
  }
}
