/**
 * The strings the HUD builds: the "MM:SS:mmm" timer and the localisation key of a rank.
 */
module Hud {
  import opened Formatting
  import opened Ranking

  /**
   * A HUD text: a localised `string.Format` template and the one argument put into it.
   * Blank is the text before the first update.
   */
  datatype HudText = Blank | Formatted(template: string, argument: string)

  /**
   * `TimeSpan.FromSeconds`: the whole number of milliseconds nearest to a time in seconds,
   * halves rounded up.
   */
  function Milliseconds(seconds: real): (ms: nat)
    requires seconds >= 0.0
    ensures ms as real - 0.5 <= seconds * 1000.0 < ms as real + 0.5
  {
    (seconds * 1000.0 + 0.5).Floor
  }

  /** The Minutes, Seconds and Milliseconds components of a TimeSpan of ms milliseconds. */
  function MinutesOf(ms: nat): (minutes: nat)
    ensures minutes < 60
  {
    (ms / 60000) % 60
  }

  function SecondsOf(ms: nat): (seconds: nat)
    ensures seconds < 60
  {
    (ms / 1000) % 60
  }

  function MillisOf(ms: nat): (milliseconds: nat)
    ensures milliseconds < 1000
  {
    ms % 1000
  }

  /** `String.Format("{0:00}:{1:00}:{2:000}", minutes, seconds, milliseconds)`. */
  function TimerString(minutes: nat, seconds: nat, milliseconds: nat): string
  {
    ZeroPad(minutes, 2) + ":" + ZeroPad(seconds, 2) + ":" + ZeroPad(milliseconds, 3)
  }

  /** The timer text of a time span of ms milliseconds. */
  function TimerText(ms: nat): (s: string)
    ensures |s| == 9 && s[2] == ':' && s[5] == ':'
    ensures AllDigits(s[0..2]) && AllDigits(s[3..5]) && AllDigits(s[6..9])
    ensures Value(s[0..2]) == MinutesOf(ms)
    ensures Value(s[3..5]) == SecondsOf(ms)
    ensures Value(s[6..9]) == MillisOf(ms)
  {
    var m, sec, milli := MinutesOf(ms), SecondsOf(ms), MillisOf(ms);
    assert m < 100 && sec < 100 && milli < 1000;
    assert Pow10(2) == 100 && Pow10(3) == 1000;
    ZeroPadExact(m, 2);
    ZeroPadExact(sec, 2);
    ZeroPadExact(milli, 3);
    TimerFields(ZeroPad(m, 2), ZeroPad(sec, 2), ZeroPad(milli, 3));
    TimerString(m, sec, milli)
  }

  /** Where the three fields of a timer string sit. */
  lemma TimerFields(minutes: string, seconds: string, milliseconds: string)
    requires |minutes| == 2 && |seconds| == 2 && |milliseconds| == 3
    ensures var s := minutes + ":" + seconds + ":" + milliseconds;
      |s| == 9 && s[2] == ':' && s[5] == ':' &&
      s[0..2] == minutes && s[3..5] == seconds && s[6..9] == milliseconds
  {
  }

  /** The timer shows the time modulo one hour: its three fields put back together give ms mod 3600000. */
  lemma {:induction false} TimerTextRoundTrip(ms: nat)
    ensures var s := TimerText(ms);
      60000 * Value(s[0..2]) + 1000 * Value(s[3..5]) + Value(s[6..9]) == ms % 3600000
  {
    ClockComponents(ms);
  }

  /** Minutes, seconds and milliseconds of a time span together make up its time within the hour. */
  lemma ClockComponents(ms: nat)
    ensures 60000 * MinutesOf(ms) + 1000 * SecondsOf(ms) + MillisOf(ms) == ms % 3600000
  {
    WithinMinute(ms);
    WithinHour(ms);
  }

  /** Whole minutes counted from whole seconds, and the time within the minute. */
  lemma WithinMinute(ms: nat)
    ensures ms / 60000 == (ms / 1000) / 60
    ensures ms % 60000 == 1000 * ((ms / 1000) % 60) + ms % 1000
  {
    var q, r := ms / 1000, ms % 1000;
    var h, sec := q / 60, q % 60;
    assert ms == 60000 * h + (1000 * sec + r);
  }

  /** The time within the hour: whole minutes of it, then the time within the minute. */
  lemma WithinHour(ms: nat)
    ensures ms % 3600000 == 60000 * ((ms / 60000) % 60) + ms % 60000
  {
    var h, rest := ms / 60000, ms % 60000;
    var hours, minutes := h / 60, h % 60;
    assert ms == 3600000 * hours + (60000 * minutes + rest);
  }

  /** `PlayerRank.ToString()`: the enum member's name. */
  function RankName(rank: PlayerRank): string
  {
    match rank
    case Gold => "Gold"
    case Silver => "Silver"
    case Bronze => "Bronze"
  }

  /** The localisation key of a rank's name. */
  function RankKey(rank: PlayerRank): (key: string)
    ensures key == "Rank " + RankName(rank)
    ensures |key| > 5 && key[..5] == "Rank "
  {
    "Rank " + RankName(rank)
  }

  /** Different ranks are looked up under different keys. */
  lemma {:induction false} RankKeyInjective(a: PlayerRank, b: PlayerRank)
    requires RankKey(a) == RankKey(b)
    ensures a == b
  {
    assert RankKey(a)[5..] == RankName(a) && RankKey(b)[5..] == RankName(b);
    assert RankName(a) == RankName(b);
  }
}
