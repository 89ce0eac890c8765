/** The sleep log (src/components/SleepTracker.tsx): the duration of a night from
    bedtime to wake time, wrapping past midnight; the validated append of a record; the
    hours-and-minutes display of a duration; the quality tiers; and the averages. */
module SleepTracker {
  import opened Types
  import opened Seqs
  import opened Text

  const MinutesPerDay: int := 24 * 60

  /** Minutes from bedtime to wake time; a wake time earlier than the bedtime falls on
      the next day. The result is the one span in [0, 1440) that brings the clock from
      the bedtime to the wake time. */
  function SleepDuration(bedtime: MinuteOfDay, wakeTime: MinuteOfDay): (d: int)
    ensures 0 <= d < MinutesPerDay
    ensures (bedtime + d) % MinutesPerDay == wakeTime
    ensures d == 0 <==> bedtime == wakeTime
  {
    if wakeTime < bedtime then wakeTime - bedtime + MinutesPerDay else wakeTime - bedtime
  }

  /** The span is determined by the two clock readings: any span in [0, 1440) that
      leads from the bedtime to the wake time is the computed one. */
  lemma SleepDurationUnique(bedtime: MinuteOfDay, wakeTime: MinuteOfDay, d: int)
    requires 0 <= d < MinutesPerDay && (bedtime + d) % MinutesPerDay == wakeTime
    ensures d == SleepDuration(bedtime, wakeTime)
  {
    if bedtime + d >= MinutesPerDay {
      assert (bedtime + d) % MinutesPerDay == bedtime + d - MinutesPerDay;
    }
  }

  /** 23:00 to 07:00 is eight hours; 09:00 to 10:30 is an hour and a half. */
  lemma SleepDurationExamples()
    ensures SleepDuration(23 * 60, 7 * 60) == 480
    ensures SleepDuration(9 * 60, 10 * 60 + 30) == 90
  {
  }

  /** The "Log Sleep" form. An empty time input is `None`. */
  datatype SleepForm = SleepForm(
    date: string,
    bedtime: Option<MinuteOfDay>,
    wakeTime: Option<MinuteOfDay>,
    quality: Quality,
    notes: string)

  /** `addSleepRecord`: nothing happens unless both times are given; otherwise one record
      is appended, carrying the form's fields, the computed duration and `id`. */
  function AddSleepRecord(records: seq<SleepRecord>, form: SleepForm, id: string): (r: seq<SleepRecord>)
    ensures form.bedtime == None || form.wakeTime == None ==> r == records
    ensures form.bedtime != None && form.wakeTime != None ==>
      |r| == |records| + 1 && r[..|records|] == records &&
      var rec := r[|records|];
      rec.id == id && rec.date == form.date && rec.bedtime == form.bedtime.value &&
      rec.wakeTime == form.wakeTime.value && rec.quality == form.quality &&
      rec.duration == SleepDuration(form.bedtime.value, form.wakeTime.value) &&
      (rec.notes == None <==> form.notes == "") &&
      (rec.notes != None ==> rec.notes.value == form.notes)
  {
    match (form.bedtime, form.wakeTime)
    case (Some(bed), Some(wake)) =>
      var rec := SleepRecord(id, form.date, bed, wake, SleepDuration(bed, wake), form.quality, Optional(form.notes));
      assert (records + [rec])[..|records|] == records;
      records + [rec]
    case _ => records
  }

  /** `formatDuration(minutes)`: "<hours>h <minutes>m". It reads back as the whole hours
      and the minutes left over, which are under sixty and make up the duration with the
      hours, and neither number is padded with zeros. */
  function FormatDuration(minutes: nat): (r: string)
    ensures ParseDuration(r) == Some((minutes / 60, minutes % 60))
    ensures var (h, m) := ParseDuration(r).value; m < 60 && h * 60 + m == minutes
    ensures |r| == |NatToString(minutes / 60)| + |NatToString(minutes % 60)| + 3
  {
    var h, m := NatToString(minutes / 60), NatToString(minutes % 60);
    var r := h + ("h " + m + "m");
    SplitDigitsOf(h, "h " + m + "m");
    assert ("h " + m + "m")[2..] == m + "m";
    SplitDigitsOf(m, "m");
    ParseNatToString(minutes / 60);
    ParseNatToString(minutes % 60);
    r
  }

  /** Reads back "<h>h <m>m" as the pair of numbers it shows. */
  function ParseDuration(s: string): Option<(nat, nat)>
  {
    var (hours, rest) := SplitDigits(s);
    if hours == [] || |rest| < 2 || rest[..2] != "h " then None
    else
      var (mins, tail) := SplitDigits(rest[2..]);
      if mins == [] || tail != "m" then None
      else Some((ParseNat(hours), ParseNat(mins)))
  }

  datatype Tier = Good | Fair | Poor

  /** `getQualityColor` (and the trend dots on the dashboard): four and up is good,
      three is fair, anything lower is poor. */
  function QualityTier(quality: int): (t: Tier)
    ensures t == Good <==> quality >= 4
    ensures t == Fair <==> quality == 3
    ensures t == Poor <==> quality <= 2
  {
    if quality >= 4 then Good else if quality >= 3 then Fair else Poor
  }

  function DurationOf(r: SleepRecord): int { r.duration }

  function QualityOf(r: SleepRecord): int { r.quality }

  /** `averageDuration`: zero for no records, otherwise the mean duration rounded to the
      nearest minute, halves rounding up (`Math.round`). */
  function AverageDuration(records: seq<SleepRecord>): (avg: int)
    ensures records == [] ==> avg == 0
    ensures records != [] ==>
      var n, total := |records|, Sum(records, DurationOf);
      2 * avg * n <= 2 * total + n < 2 * avg * n + 2 * n
  {
    if records == [] then 0
    else
      var n, total := |records|, Sum(records, DurationOf);
      var avg := (2 * total + n) / (2 * n);
      assert 2 * n * avg <= 2 * total + n < 2 * n * avg + 2 * n;
      avg
  }

  /** `averageQuality` before its formatting: zero for no records, otherwise the mean. */
  function AverageQuality(records: seq<SleepRecord>): (avg: real)
    ensures records == [] ==> avg == 0.0
    ensures records != [] ==> avg * |records| as real == Sum(records, QualityOf) as real
    ensures records != [] ==> 1.0 <= avg <= 5.0
  {
    if records == [] then 0.0
    else
      QualitySumBounds(records);
      MeanBounds(Sum(records, QualityOf) as real, |records| as real);
      Sum(records, QualityOf) as real / |records| as real
  }

  lemma MeanBounds(total: real, n: real)
    requires 0.0 < n && n <= total <= 5.0 * n
    ensures (total / n) * n == total && 1.0 <= total / n <= 5.0
  {
    var avg := total / n;
    assert avg * n == total;
    assert 1.0 <= avg;
    assert avg <= 5.0;
  }

  /** Each quality lies in 1..5, so their sum lies between n and 5n. */
  lemma {:induction false} QualitySumBounds(records: seq<SleepRecord>)
    ensures |records| <= Sum(records, QualityOf) <= 5 * |records|
    decreases |records|
  {
    if records != [] {
      QualitySumBounds(records[..|records| - 1]);
    }
  }
}
