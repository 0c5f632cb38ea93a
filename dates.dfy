/** Relative-date labels of the dashboard client: "days until" a due date and "time ago" of a
    posting. Every date is an integer millisecond time value; the current instant is a parameter. */
module Dates {
  import opened Text

  const MS_PER_MINUTE: int := 60000
  const MS_PER_HOUR: int := 3600000
  const MS_PER_DAY: int := 86400000

  /** A date string as the client receives it: falsy (empty, null or undefined), a string that
      `new Date` cannot parse (an Invalid Date, whose time value is NaN), or a time value. */
  datatype DateInput = Missing | Unparsable | At(ms: int)

  /** `Math.floor(a / b)` for a positive divisor. */
  function FloorDiv(a: int, b: int): (q: int)
    requires b > 0
    ensures b * q <= a < b * q + b
  {
    a / b
  }

  /** `Math.ceil(a / b)` for a positive divisor. */
  function CeilDiv(a: int, b: int): (q: int)
    requires b > 0
    ensures b * q - b < a <= b * q
  {
    -FloorDiv(-a, b)
  }

  /** The whole-day ceiling distance from `now` to `t` that both the days-left label and the
      urgent counter use. */
  function DaysLeft(t: int, now: int): (days: int)
    ensures days < 0 <==> t - now <= -MS_PER_DAY
    ensures days == 0 <==> -MS_PER_DAY < t - now <= 0
    ensures days == 1 <==> 0 < t - now <= MS_PER_DAY
    ensures days >= 2 <==> t - now > MS_PER_DAY
  {
    CeilDiv(t - now, MS_PER_DAY)
  }

  /** `getDaysUntil(dateString)`. A NaN day count fails every comparison and prints as "NaN". */
  function DaysUntil(date: DateInput, now: int): (r: string)
    ensures r == "" <==> date.Missing?
  {
    match date
    case Missing => ""
    case Unparsable => "NaN days left"
    case At(t) =>
      var days := DaysLeft(t, now);
      if days < 0 then "Overdue"
      else if days == 0 then "Today"
      else if days == 1 then "Tomorrow"
      else IntToString(days) + " days left"
  }

  /** The buckets of the days-until label. With d = target - now: "Overdue" exactly when d is a
      full day or more in the past, "Today" for the rest of the past up to now (so an instant less
      than a day old is not overdue), "Tomorrow" for the next 24 hours, and beyond that the
      ceiling day count, which is then at least 2. */
  lemma DaysUntilBuckets(t: int, now: int)
    ensures DaysUntil(At(t), now) == "Overdue" <==> t - now <= -MS_PER_DAY
    ensures DaysUntil(At(t), now) == "Today" <==> -MS_PER_DAY < t - now <= 0
    ensures DaysUntil(At(t), now) == "Tomorrow" <==> 0 < t - now <= MS_PER_DAY
    ensures DaysUntil(At(t), now) == IntToString(DaysLeft(t, now)) + " days left" <==> t - now > MS_PER_DAY
    ensures t - now > MS_PER_DAY ==> DaysLeft(t, now) >= 2
  {
  }

  /** `getTimeAgo(dateString)`: minutes, then hours, then days, each a floor division of the
      elapsed milliseconds. */
  function TimeAgo(date: DateInput, now: int): (r: string)
    ensures r == "" <==> date.Missing?
  {
    match date
    case Missing => ""
    case Unparsable => "NaN days ago"
    case At(t) =>
      var d := now - t;
      var mins := FloorDiv(d, MS_PER_MINUTE);
      var hours := FloorDiv(d, MS_PER_HOUR);
      var days := FloorDiv(d, MS_PER_DAY);
      if mins < 60 then IntToString(mins) + " minutes ago"
      else if hours < 24 then IntToString(hours) + " hours ago"
      else if days == 1 then "Yesterday"
      else IntToString(days) + " days ago"
  }

  /** The three floor divisions agree on where the buckets of the time-ago label begin. */
  lemma AgoThresholds(d: int)
    ensures FloorDiv(d, MS_PER_MINUTE) < 60 <==> d < MS_PER_HOUR
    ensures FloorDiv(d, MS_PER_HOUR) < 24 <==> d < MS_PER_DAY
    ensures FloorDiv(d, MS_PER_DAY) == 1 <==> MS_PER_DAY <= d < 2 * MS_PER_DAY
    ensures MS_PER_HOUR <= d < MS_PER_DAY ==> 1 <= FloorDiv(d, MS_PER_HOUR) <= 23
    ensures d >= 2 * MS_PER_DAY ==> FloorDiv(d, MS_PER_DAY) >= 2
  {
  }

  /** Labels of the three counted shapes never coincide, whatever the counts: the sixth character
      from the end is 'e', 'r' or 'y'. */
  lemma AgoShapesDistinct(a: int, b: int, c: int)
    ensures IntToString(a) + " minutes ago" != IntToString(b) + " hours ago"
    ensures IntToString(a) + " minutes ago" != IntToString(c) + " days ago"
    ensures IntToString(b) + " hours ago" != IntToString(c) + " days ago"
  {
    var m := IntToString(a) + " minutes ago";
    var h := IntToString(b) + " hours ago";
    var y := IntToString(c) + " days ago";
    assert m[|m| - 6] == " minutes ago"[6];
    assert h[|h| - 6] == " hours ago"[4];
    assert y[|y| - 6] == " days ago"[3];
  }

  /** The buckets of the time-ago label are mutually exclusive ranges of d = now - target: minutes
      for everything under an hour (negative counts included, for instants in the future), hours
      (1 to 23) under a day, "Yesterday" for the second day, and days (at least 2) beyond. */
  lemma TimeAgoBuckets(t: int, now: int)
    ensures TimeAgo(At(t), now) == IntToString(FloorDiv(now - t, MS_PER_MINUTE)) + " minutes ago"
      <==> now - t < MS_PER_HOUR
    ensures TimeAgo(At(t), now) == IntToString(FloorDiv(now - t, MS_PER_HOUR)) + " hours ago"
      <==> MS_PER_HOUR <= now - t < MS_PER_DAY
    ensures TimeAgo(At(t), now) == "Yesterday"
      <==> MS_PER_DAY <= now - t < 2 * MS_PER_DAY
    ensures TimeAgo(At(t), now) == IntToString(FloorDiv(now - t, MS_PER_DAY)) + " days ago"
      <==> now - t >= 2 * MS_PER_DAY
    ensures MS_PER_HOUR <= now - t < MS_PER_DAY ==> 1 <= FloorDiv(now - t, MS_PER_HOUR) <= 23
    ensures now - t >= 2 * MS_PER_DAY ==> FloorDiv(now - t, MS_PER_DAY) >= 2
  {
    var d := now - t;
    AgoThresholds(d);
    AgoShapesDistinct(FloorDiv(d, MS_PER_MINUTE), FloorDiv(d, MS_PER_HOUR), FloorDiv(d, MS_PER_DAY));
  }
}
