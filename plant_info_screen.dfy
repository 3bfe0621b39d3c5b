/**
 * The text helpers of the plant information screen: `formatDuration` and
 * `formatTimeAgo`, with the clock as an input. `TimeUnit.MILLISECONDS.toX`
 * is a Long division that rounds toward zero, and `%` keeps the sign of the
 * dividend.
 */
module PlantInfoScreen {
  import opened Wrappers
  import opened KotlinMath
  import opened Text

  const MILLIS_PER_MINUTE: int := 60000
  const MILLIS_PER_HOUR: int := 3600000
  const MILLIS_PER_DAY: int := 86400000

  const JUST_PLANTED: string := "Recién plantada"
  const JUST_NOW: string := "Ahora mismo"

  /** The whole hours of a duration and the minutes past them; together they are its whole minutes. */
  function DurationParts(millis: int): (r: (int, int))
    ensures millis >= 0 ==> r.0 == millis / 3600000 && 0 <= r.1 < 60 && r.0 * 60 + r.1 == millis / 60000
    ensures millis < 0 ==> r.0 <= 0 && r.1 <= 0
  {
    var hours := TruncDiv(millis, MILLIS_PER_HOUR);
    var minutes := TruncRem(TruncDiv(millis, MILLIS_PER_MINUTE), 60);
    if millis >= 0 then
      var m := millis / 60000;
      assert millis == 60000 * m + millis % 60000;
      assert m == 60 * (m / 60) + m % 60;
      assert millis == 3600000 * (m / 60) + (60000 * (m % 60) + millis % 60000);
      assert millis / 3600000 == m / 60;
      (hours, minutes)
    else (hours, minutes)
  }

  /** `formatDuration`: hours and minutes, minutes alone, or "Recién plantada" under a minute. */
  function FormatDuration(millis: int): (r: string)
    ensures millis >= 3600000 ==> r == NatToString(millis / 3600000) + "h " + NatToString(millis / 60000 % 60) + "m"
    ensures 60000 <= millis < 3600000 ==> r == NatToString(millis / 60000) + "m"
    ensures r == JUST_PLANTED <==> millis < 60000
  {
    var parts := DurationParts(millis);
    var hours, minutes := parts.0, parts.1;
    if hours > 0 then
      var r := NatToString(hours) + "h " + NatToString(minutes) + "m";
      assert r[0] != JUST_PLANTED[0];
      r
    else if minutes > 0 then
      var r := NatToString(minutes) + "m";
      assert r[0] != JUST_PLANTED[0];
      r
    else JUST_PLANTED
  }

  /** The "Hace {n}{unit}" template. */
  function Ago(n: nat, unit: char): (r: string)
    ensures |r| > 5 && r[0] == 'H'
  {
    "Hace " + NatToString(n) + [unit]
  }

  /** `formatTimeAgo`: only the largest unit with a non-zero count, or "Ahora mismo" (also for a time in the future). */
  function FormatTimeAgo(now: int, timestamp: int): (r: string)
    ensures var diff := now - timestamp;
      && (diff >= 86400000 ==> r == "Hace " + NatToString(diff / 86400000) + "d")
      && (3600000 <= diff < 86400000 ==> r == "Hace " + NatToString(diff / 3600000) + "h")
      && (60000 <= diff < 3600000 ==> r == "Hace " + NatToString(diff / 60000) + "m")
      && (r == JUST_NOW <==> diff < 60000)
  {
    var diff := now - timestamp;
    var minutes := TruncDiv(diff, MILLIS_PER_MINUTE);
    var hours := TruncDiv(diff, MILLIS_PER_HOUR);
    var days := TruncDiv(diff, MILLIS_PER_DAY);
    assert JUST_NOW[0] == 'A';
    if days > 0 then Ago(days, 'd')
    else if hours > 0 then Ago(hours, 'h')
    else if minutes > 0 then Ago(minutes, 'm')
    else JUST_NOW
  }

  /** The reading of a "Hace {n}{unit}" text: its count and its unit letter. */
  function ReadTimeAgo(s: string): (r: Option<(nat, char)>)
    ensures r.Some? ==> r.value.1 in {'d', 'h', 'm'}
  {
    if |s| >= 7 && s[..5] == "Hace " && s[|s| - 1] in {'d', 'h', 'm'} && IsDecimal(s[5..|s| - 1]) then
      Some((DecimalValue(s[5..|s| - 1]), s[|s| - 1]))
    else None
  }

  /** The reading of a rendered count and unit gives them back. */
  lemma ReadRendered(n: nat, unit: char)
    requires unit in {'d', 'h', 'm'}
    ensures ReadTimeAgo(Ago(n, unit)) == Some((n, unit))
  {
    var s := Ago(n, unit);
    assert s[..5] == "Hace ";
    assert s[5..|s| - 1] == NatToString(n);
    NatToStringRoundTrip(n);
  }

  /**
   * The text of `formatTimeAgo` says exactly how many whole days, hours or
   * minutes have passed, in the largest unit that is not zero.
   */
  lemma TimeAgoReadsBack(now: int, timestamp: int)
    ensures var diff, read := now - timestamp, ReadTimeAgo(FormatTimeAgo(now, timestamp));
      && (diff >= 86400000 ==> read == Some((diff / 86400000, 'd')))
      && (3600000 <= diff < 86400000 ==> read == Some((diff / 3600000, 'h')))
      && (60000 <= diff < 3600000 ==> read == Some((diff / 60000, 'm')))
      && (diff < 60000 ==> read == None)
  {
    var diff := now - timestamp;
    if diff >= 86400000 {
      assert FormatTimeAgo(now, timestamp) == Ago(diff / 86400000, 'd');
      ReadRendered(diff / 86400000, 'd');
    } else if diff >= 3600000 {
      assert FormatTimeAgo(now, timestamp) == Ago(diff / 3600000, 'h');
      ReadRendered(diff / 3600000, 'h');
    } else if diff >= 60000 {
      assert FormatTimeAgo(now, timestamp) == Ago(diff / 60000, 'm');
      ReadRendered(diff / 60000, 'm');
    } else {
      assert JUST_NOW[..5][0] != "Hace "[0];
    }
  }
}
