/**
 * One episode in a season's list (components/features/tv/EpisodeCard.tsx):
 * its runtime label, its player link, its still image and its progress bar.
 */
module EpisodeCard {
  import opened Common
  import opened TvTypes
  import opened Images

  /**
   * `formatRuntime(minutes)`: nothing for a missing or zero runtime; under
   * an hour `"<m>m"`; otherwise `"<h>h <m>m"`, or `"<h>h"` on the hour.
   */
  function FormatRuntime(minutes: Option<int>): Option<string> {
    if minutes.None? || minutes.value == 0 then None
    else
      var m := minutes.value;
      var hours := m / 60;
      var mins := m % 60;
      if hours > 0 then
        Some(if mins > 0 then IntToString(hours) + ("h " + (IntToString(mins) + "m")) else IntToString(hours) + "h")
      else Some(IntToString(m) + "m")
  }

  /** Reads a label `"<h>h <m>m"`, `"<h>h"` or `"<m>m"` back into minutes. */
  function ParseRuntime(s: string): Option<int> {
    var d1 := LeadingDigits(s);
    if d1 == [] then None else ParseUnit(ParseDigits(d1), s[|d1|..])
  }

  /** The rest of a label after its first number `n`. */
  function ParseUnit(n: int, rest: string): Option<int> {
    if rest == "m" then Some(n)
    else if rest == "h" then Some(60 * n)
    else if |rest| >= 2 && rest[..2] == "h " then ParseMinutes(n, rest[2..])
    else None
  }

  function HoursToMinutes(h: int): int { 60 * h }
  /** The minutes part after `h` hours: digits then `"m"`. */
  function ParseMinutes(hours: int, t: string): Option<int> {
    var d2 := LeadingDigits(t);
    if d2 != [] && t[|d2|..] == "m" then Some(HoursToMinutes(hours) + ParseDigits(d2)) else None
  }

  /** A label starting with a run of digits continues with the unit after it. */
  lemma ParseAfterDigits(d: string, tail: string)
    requires d != [] && AllDigits(d)
    requires tail != [] && !IsDigit(tail[0])
    ensures ParseRuntime(d + tail) == ParseUnit(ParseDigits(d), tail)
  {
    LeadingDigitsOfDigits(d, tail);
    assert (d + tail)[|d|..] == tail;
  }

  /** Digits then `"m"` after `h` hours are `60 * h` plus their value. */
  lemma ParseMinutesOf(hours: int, d: string)
    requires d != [] && AllDigits(d)
    ensures ParseMinutes(hours, d + "m") == Some(HoursToMinutes(hours) + ParseDigits(d))
  {
    LeadingDigitsOfDigits(d, "m");
    assert (d + "m")[|d|..] == "m";
  }

  /** `"h <digits>m"` after `h` hours is `60 * h` plus the minutes. */
  lemma ParseUnitHoursMinutes(hours: int, md: string)
    requires md != [] && AllDigits(md)
    ensures ParseUnit(hours, "h " + (md + "m")) == Some(HoursToMinutes(hours) + ParseDigits(md))
  {
    var tail := "h " + (md + "m");
    assert tail[..2] == "h " && tail[2..] == md + "m";
    ParseMinutesOf(hours, md);
  }

  /** `"<digits>h <digits>m"` reads back as sixty times the first number plus the second. */
  lemma ParseLabelDigits(hd: string, md: string)
    requires hd != [] && AllDigits(hd) && md != [] && AllDigits(md)
    ensures ParseRuntime(hd + ("h " + (md + "m"))) == Some(HoursToMinutes(ParseDigits(hd)) + ParseDigits(md))
  {
    var tail := "h " + (md + "m");
    assert tail[0] == 'h';
    ParseAfterDigits(hd, tail);
    ParseUnitHoursMinutes(ParseDigits(hd), md);
  }

  /** `"<h>h <m>m"` reads back as `60 * h + m` minutes. */
  lemma ParseHoursMinutes(hours: nat, mins: nat)
    ensures ParseRuntime(NatToString(hours) + ("h " + (NatToString(mins) + "m"))) == Some(60 * hours + mins)
  {
    var hd := NatToString(hours);
    var md := NatToString(mins);
    assert ParseDigits(hd) == hours by { ParseNatToString(hours); }
    assert ParseDigits(md) == mins by { ParseNatToString(mins); }
    ParseLabelDigits(hd, md);
  }

  /** `"<n>" + unit` reads back as `n` with a one-letter unit. */
  lemma ParseSingleUnit(n: nat, unit: string)
    requires unit == "h" || unit == "m"
    ensures ParseRuntime(NatToString(n) + unit) == Some(if unit == "h" then 60 * n else n)
  {
    var d := NatToString(n);
    assert ParseDigits(d) == n by { ParseNatToString(n); }
    ParseAfterDigits(d, unit);
  }

  /**
   * A positive runtime has a label that reads back as the same number of
   * minutes: whole hours and the remaining minutes, which are under an
   * hour and shown only when not zero.
   */
  lemma FormatRuntimeRoundTrip(m: int)
    requires m > 0
    ensures FormatRuntime(Some(m)).Some?
    ensures ParseRuntime(FormatRuntime(Some(m)).value) == Some(m)
  {
    var hours := m / 60;
    var mins := m % 60;
    assert m == 60 * hours + mins;
    var text := FormatRuntime(Some(m)).value;
    if hours > 0 {
      if mins > 0 {
        assert text == NatToString(hours) + ("h " + (NatToString(mins) + "m"));
        ParseHoursMinutes(hours, mins);
      } else {
        assert text == NatToString(hours) + "h";
        ParseSingleUnit(hours, "h");
      }
    } else {
      assert text == NatToString(m) + "m";
      ParseSingleUnit(m, "m");
    }
  }

  /** Distinct positive runtimes have distinct labels; no runtime and zero have none. */
  lemma FormatRuntimeCases(a: int, b: int)
    ensures FormatRuntime(None) == None && FormatRuntime(Some(0)) == None
    ensures a > 0 && b > 0 && FormatRuntime(Some(a)) == FormatRuntime(Some(b)) ==> a == b
    ensures a != 0 ==> FormatRuntime(Some(a)).Some?
  {
    if a > 0 && b > 0 {
      FormatRuntimeRoundTrip(a);
      FormatRuntimeRoundTrip(b);
    }
  }

  /** The card's link: the player at this show, season and episode. */
  function EpisodeHref(showId: int, season: int, e: TvEpisode): string {
    TvWatchPath(showId, season, e.episodeNumber)
  }

  /** The still as a large poster-size image, when there is one. */
  function ThumbnailUrl(e: TvEpisode): (r: Option<string>)
    ensures r.None? <==> Blank(e.stillPath)
    ensures r.Some? ==> |r.value| > |ImageBase + PosterCode(PosterLg)| && Some(PathOf(PosterCode(PosterLg), r.value)) == e.stillPath
  {
    if Blank(e.stillPath) then None else PosterUrl(e.stillPath, PosterLg)
  }

  /** `Math.round(x)`: halves go up. */
  function JsRound(x: real): (n: int)
    ensures x - 0.5 < n as real <= x + 0.5
  {
    (x + 0.5).Floor
  }

  /** The drawn bar: its width in percent and the whole percent it announces. */
  datatype ProgressBar = ProgressBar(width: real, announced: int)

  /**
   * The bar over the thumbnail: drawn only for a progress above zero, as
   * wide as the progress clamped to at most 100 %.
   */
  function ProgressBarOf(progress: Option<real>): (b: Option<ProgressBar>)
    ensures b.Some? <==> progress.Some? && progress.value > 0.0
    ensures b.Some? ==> 0.0 < b.value.width <= 100.0 && b.value.width <= progress.value
    ensures b.Some? && progress.value <= 100.0 ==> b.value.width == progress.value
    ensures b.Some? && progress.value > 100.0 ==> b.value.width == 100.0
    ensures b.Some? ==> b.value.announced == JsRound(progress.value)
  {
    if progress.Some? && progress.value > 0.0 then
      var p := progress.value;
      var clamped := if p < 0.0 then 0.0 else p;
      Some(ProgressBar(if clamped > 100.0 then 100.0 else clamped, JsRound(p)))
    else None
  }
}
