/**
 * Wall-clock times and the day-segment classifier `get_time_segment`.
 *
 * Only the time of day matters to the report; the date, the time zone
 * conversion and microseconds are not part of this model.
 */
module DayTime {

  type Hour = h: int | 0 <= h < 24
  type Minute = m: int | 0 <= m < 60
  type Second = s: int | 0 <= s < 60

  /** A local time of day, as a `datetime` carries it. */
  datatype Clock = Clock(hour: Hour, minute: Minute, second: Second)

  /** Seconds since midnight: the order `<` on datetimes of one day. */
  function Seconds(c: Clock): nat {
    c.hour * 3600 + c.minute * 60 + c.second
  }

  /** Minutes since midnight, ignoring the seconds. */
  function MinuteOfDay(c: Clock): nat {
    c.hour * 60 + c.minute
  }

  /** `c.replace(hour=h, minute=m)`: the seconds are kept. */
  function Replace(c: Clock, h: Hour, m: Minute): (r: Clock)
    ensures Seconds(r) - Seconds(c) == 60 * (h * 60 + m - MinuteOfDay(c))
  {
    Clock(h, m, c.second)
  }

  datatype DaySegment = Morning | Afternoon | Evening | Night

  /** `get_time_segment`: four segments of the day, by hour alone. */
  function TimeSegment(hour: Hour): (s: DaySegment)
    ensures s == Morning <==> 6 <= hour < 12
    ensures s == Afternoon <==> 12 <= hour < 18
    ensures s == Evening <==> 18 <= hour < 23
    ensures s == Night <==> hour == 23 || hour < 6
  {
    if 6 <= hour < 12 then Morning
    else if 12 <= hour < 18 then Afternoon
    else if 18 <= hour < 23 then Evening
    else Night
  }

  /** The phrase the report speaks for a segment. */
  function SegmentText(s: DaySegment): string {
    match s
    case Morning => "בָּבּוֹקֵר"
    case Afternoon => "בָּצֹהֹרָיִים"
    case Evening => "בָּעֵרֵב"
    case Night => "בָּלָיְלָה"
  }
}
