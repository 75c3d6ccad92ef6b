/** `isBookingAvailable`: bookings open during the 12 o'clock hour on Sundays, local time. */
module BookingAvailability {

  const Sunday: int := 0

  /**
   * The predicate over a clock reading (`getDay()`, `getHours()`, `getMinutes()` of the current
   * local time, which are passed in).
   */
  function IsBookingAvailable(day: int, hour: int, minute: int): (r: bool)
    ensures r ==> day == Sunday
    ensures r ==> hour == 12
    ensures 0 <= minute < 60 ==> (r <==> day == Sunday && hour == 12)
  {
    day == Sunday && hour == 12 && minute >= 0 && minute <= 59
  }

  /** The edges of the window: it opens at 12:00 on Sunday and closes at 13:00. */
  lemma WindowEdges(day: int, minute: int)
    requires 0 <= day < 7 && 0 <= minute < 60
    ensures IsBookingAvailable(Sunday, 12, minute)
    ensures !IsBookingAvailable(Sunday, 11, 59) && !IsBookingAvailable(Sunday, 13, 0)
    ensures day != Sunday ==> !IsBookingAvailable(day, 12, minute)
  {
  }
}
