/**
 * The session rules of `get_market_report`: the Tel Aviv exchange opens at
 * 09:59 and closes at 17:25 local time, New York trades from 09:30 to 16:00
 * local time. Each boundary is built with `datetime.replace`, which keeps the
 * current seconds, so every comparison is a comparison of whole minutes.
 * There is no weekday check for either exchange.
 */
module Sessions {
  import opened DayTime

  datatype TaSession = TaBeforeOpen | TaOpen | TaClosed

  datatype UsSession = UsOpen | UsBeforeOpen | UsAfterClose

  /** 09:59 and 17:25, Tel Aviv time, in minutes since midnight. */
  const TA_OPEN: nat := 9 * 60 + 59
  const TA_CLOSE: nat := 17 * 60 + 25

  /** 09:30 and 16:00, New York time, in minutes since midnight. */
  const NY_OPEN: nat := 9 * 60 + 30
  const NY_CLOSE: nat := 16 * 60

  /** Before `ta_open`, after `ta_close`, or in between (both ends open). */
  function TaSessionAt(now: Clock): (s: TaSession)
    ensures s == TaBeforeOpen <==> MinuteOfDay(now) < TA_OPEN
    ensures s == TaClosed <==> MinuteOfDay(now) > TA_CLOSE
    ensures s == TaOpen <==> TA_OPEN <= MinuteOfDay(now) <= TA_CLOSE
  {
    if Seconds(now) < Seconds(Replace(now, 9, 59)) then TaBeforeOpen
    else if Seconds(now) > Seconds(Replace(now, 17, 25)) then TaClosed
    else TaOpen
  }

  /** `is_ny_open`: the date test always holds, since `replace` keeps the
      date, so it is the clock test alone, with both ends included. */
  function IsNyOpen(now: Clock): (b: bool)
    ensures b <==> NY_OPEN <= MinuteOfDay(now) <= NY_CLOSE
  {
    Seconds(Replace(now, 9, 30)) <= Seconds(now) <= Seconds(Replace(now, 16, 0))
  }

  /** Which of the three notes opens the world block. */
  function UsSessionAt(now: Clock): (s: UsSession)
    ensures s == UsOpen <==> IsNyOpen(now)
    ensures s == UsBeforeOpen <==> MinuteOfDay(now) < NY_OPEN
    ensures s == UsAfterClose <==> MinuteOfDay(now) > NY_CLOSE
  {
    if IsNyOpen(now) then UsOpen
    else if Seconds(now) < Seconds(Replace(now, 9, 30)) then UsBeforeOpen
    else UsAfterClose
  }

  /** The time left to the Tel Aviv open, as `divmod` splits the whole
      seconds of `ta_open - now_ta` into hours and minutes. */
  function Countdown(now: Clock): (hm: (nat, nat))
    requires TaSessionAt(now) == TaBeforeOpen
    ensures hm.1 < 60
    ensures hm.0 * 60 + hm.1 == TA_OPEN - MinuteOfDay(now)
    ensures var toOpen := TA_OPEN * 60 - Seconds(now);
            hm.0 * 3600 + hm.1 * 60 - 60 < toOpen <= hm.0 * 3600 + hm.1 * 60
  {
    var delta := Seconds(Replace(now, 9, 59)) - Seconds(now);
    var hours := delta / 3600;
    var remainder := delta % 3600;
    (hours, remainder / 60)
  }
}
