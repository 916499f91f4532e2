/** The deadline countdown: the milliseconds left until the deadline, split
    into days, hours, minutes and seconds, or expired once nothing is left. */
module CountdownTimer {
  import opened TaskModel

  const HourMs: int := 3600000
  const MinuteMs: int := 60000
  const SecondMs: int := 1000

  datatype Countdown = Expired | Remaining(days: int, hours: int, minutes: int, seconds: int)

  /** `calc`: with diff = deadline - now, expired when diff is not positive;
      otherwise whole days, then the hours, minutes and seconds of what is
      left. The remainders are of a positive number, where JavaScript's `%`
      and the mathematical one agree. */
  function Calc(deadline: int, now: int): (c: Countdown)
    ensures c == Expired <==> deadline - now <= 0
    ensures c.Remaining? ==>
      && c.days == (deadline - now) / DayMs
      && 0 <= c.hours < 24 && 0 <= c.minutes < 60 && 0 <= c.seconds < 60
  {
    var diff := deadline - now;
    if diff <= 0 then Expired
    else Remaining(diff / DayMs, (diff % DayMs) / HourMs, (diff % HourMs) / MinuteMs, (diff % MinuteMs) / SecondMs)
  }

  /** The milliseconds a countdown shows. */
  function Shown(c: Countdown): int {
    match c
    case Expired => 0
    case Remaining(d, h, m, s) => d * DayMs + h * HourMs + m * MinuteMs + s * SecondMs
  }

  /** The parts add back up to the time left, short of it by less than a
      second: only the milliseconds are dropped. */
  lemma Recompose(deadline: int, now: int)
    requires deadline - now > 0
    ensures Shown(Calc(deadline, now)) <= deadline - now < Shown(Calc(deadline, now)) + SecondMs
  {
    var diff := deadline - now;
    DivModUnique(diff % DayMs, HourMs, (diff % DayMs) / HourMs, diff % HourMs, 24 * ((diff / DayMs)), diff);
    DivModUnique(diff % HourMs, MinuteMs, (diff % HourMs) / MinuteMs, diff % MinuteMs, 60 * (diff / HourMs), diff);
  }

  /** Within a remainder by k*b, splitting by b leaves the remainder by b. */
  lemma DivModUnique(rk: int, b: int, q: int, rb: int, shift: int, x: int)
    requires b > 0 && q == rk / b && rb == x % b && 0 <= rk
    requires x == shift * b + rk
    ensures rk == q * b + rb
  {
    var m := rk % b;
    assert rk == q * b + m;
    assert x == (shift + q) * b + m;
    ModUnique(x, b, shift + q, m);
  }

  /** Euclidean division is unique: x = n*b + m with 0 <= m < b fixes m. */
  lemma ModUnique(x: int, b: int, n: int, m: int)
    requires b > 0 && 0 <= m < b && x == n * b + m
    ensures x % b == m
  {
    var n', m' := x / b, x % b;
    assert x == n' * b + m';
    MulSign(n - n', b);
    assert (n - n') * b == m' - m;
  }

  /** A non-zero multiple of b is at least b away from zero. */
  lemma MulSign(k: int, b: int)
    requires b > 0
    ensures k >= 1 ==> k * b >= b
    ensures k <= -1 ==> k * b <= -b
  {
  }

  /** A deadline one day, two hours, three minutes and four and a half
      seconds away shows as 1d 2h 3m 4s. */
  lemma Example(now: int)
    ensures Calc(now + 93784500, now) == Remaining(1, 2, 3, 4)
  {
  }
}
