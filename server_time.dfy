/**
 * The start-up guard of the Python service (`is_outside_server_time` in
 * `Backend/Features/main.py`): the service exits at import time when the
 * guard holds. The clock read is left out; the guard is a predicate on the
 * time of day it is given.
 */
module ServerTime {

  /** A naive time of day, as Python's `datetime.time`. */
  datatype Time = Time(hour: int, minute: int, second: int, microsecond: int)

  predicate Valid(t: Time)
  {
    0 <= t.hour < 24 && 0 <= t.minute < 60 && 0 <= t.second < 60 && 0 <= t.microsecond < 1000000
  }

  /** Python's ordering of times: field by field, hour first. */
  predicate Before(a: Time, b: Time)
  {
    a.hour < b.hour
    || (a.hour == b.hour && a.minute < b.minute)
    || (a.hour == b.hour && a.minute == b.minute && a.second < b.second)
    || (a.hour == b.hour && a.minute == b.minute && a.second == b.second && a.microsecond < b.microsecond)
  }

  /** Microseconds since midnight: an independent reading of the same order. */
  function SinceMidnight(t: Time): int
  {
    ((t.hour * 60 + t.minute) * 60 + t.second) * 1000000 + t.microsecond
  }

  lemma {:induction false} BeforeIsChronological(a: Time, b: Time)
    requires Valid(a) && Valid(b)
    ensures Before(a, b) <==> SinceMidnight(a) < SinceMidnight(b)
  {
    var sa := a.hour * 60 + a.minute;
    var sb := b.hour * 60 + b.minute;
    assert sa < sb <==> a.hour < b.hour || (a.hour == b.hour && a.minute < b.minute);
    var ta := sa * 60 + a.second;
    var tb := sb * 60 + b.second;
    assert ta < tb <==> sa < sb || (sa == sb && a.second < b.second) by {
      if sa < sb { assert ta < tb by { assert sa + 1 <= sb; assert (sa + 1) * 60 <= sb * 60; } }
      else if sa > sb { assert tb < ta by { assert sb + 1 <= sa; assert (sb + 1) * 60 <= sa * 60; } }
    }
    assert SinceMidnight(a) < SinceMidnight(b) <==> ta < tb || (ta == tb && a.microsecond < b.microsecond) by {
      assert SinceMidnight(a) == ta * 1000000 + a.microsecond;
      assert SinceMidnight(b) == tb * 1000000 + b.microsecond;
      if ta < tb { assert (ta + 1) * 1000000 <= tb * 1000000; }
      else if ta > tb { assert (tb + 1) * 1000000 <= ta * 1000000; }
    }
    assert sa == sb <==> a.hour == b.hour && a.minute == b.minute;
    assert ta == tb <==> sa == sb && a.second == b.second;
  }

  const Midnight: Time := Time(0, 0, 0, 0)
  const SixAm: Time := Time(6, 0, 0, 0)

  /** `start <= now < end` with the window from 12:00 AM to 6:00 AM. */
  predicate InWindow(t: Time)
  {
    !Before(t, Midnight) && Before(t, SixAm)
  }

  /**
   * The guard as written: it holds inside the window, so the service stops
   * during the hours its own message says are the only allowed ones.
   */
  function IsOutsideServerTimeAsWritten(t: Time): (r: bool)
    ensures Valid(t) ==> (r <==> t.hour < 6)
  {
    InWindow(t)
  }

  /** The guard as its name and message intend: it holds outside the window. */
  function IsOutsideServerTime(t: Time): (r: bool)
    ensures Valid(t) ==> (r <==> t.hour >= 6)
  {
    !InWindow(t)
  }

  /** The service starts as written exactly from 6:00 AM on, never inside the window. */
  lemma StartsAsWritten(t: Time)
    requires Valid(t)
    ensures !IsOutsideServerTimeAsWritten(t) <==> SinceMidnight(SixAm) <= SinceMidnight(t)
  {
    BeforeIsChronological(t, SixAm);
  }

  /** At 3:00 AM, inside the announced window, the guard as written stops the service. */
  lemma StopsInsideWindow()
    ensures InWindow(Time(3, 0, 0, 0)) && IsOutsideServerTimeAsWritten(Time(3, 0, 0, 0))
  {
  }

  /** Corrected, the service starts exactly inside the window: from midnight up to, not including, 6:00 AM. */
  lemma StartsOnlyInWindow(t: Time)
    requires Valid(t)
    ensures !IsOutsideServerTime(t) <==> SinceMidnight(t) < SinceMidnight(SixAm)
    ensures !IsOutsideServerTime(t) <==> InWindow(t)
  {
    BeforeIsChronological(t, SixAm);
  }
}
