/**
 * The form validators: each `clean_*` either raises a validation error or
 * hands back the value it was given. Date-times are seconds, times of day
 * are seconds after midnight, and `now` is passed in.
 */
module Forms {
  import opened Wrappers

  datatype FormError =
    | DateMissing      // "Please select a booking date and time."
    | DateNotFuture    // "Booking date must be in the future."
    | DateTooFar       // "Booking date cannot be more than 1 year in the future."
    | TimesRequired    // "Start time and end time are required for working days."
    | EndNotAfterStart // "End time must be after start time."
    | RatingOutOfRange // "Rating must be between 0.5 and 5."

  /** `timezone.timedelta(days=365)` in seconds. */
  const Year: int := 365 * 86400

  /**
   * `RescheduleBookingForm.clean_booking_date`: an empty field passes
   * untouched; a date must lie after `now` and at most a year later.
   */
  function RescheduleDate(date: Option<int>, now: int): (r: Result<Option<int>, FormError>)
    ensures r.Ok? <==> date.None? || now < date.value <= now + Year
    ensures r.Ok? ==> r.value == date
    ensures r == Err(DateNotFuture) <==> date.Some? && date.value <= now
    ensures r == Err(DateTooFar) <==> date.Some? && date.value > now + Year
  {
    match date
    case None => Ok(date)
    case Some(d) =>
      if d <= now then Err(DateNotFuture)
      else if d > now + Year then Err(DateTooFar)
      else Ok(date)
  }

  /** The edges of the window: `now` itself is refused, exactly a year ahead is allowed, a second more is not. */
  lemma RescheduleWindowEdges(now: int)
    ensures RescheduleDate(Some(now), now) == Err(DateNotFuture)
    ensures RescheduleDate(Some(now + 1), now) == Ok(Some(now + 1))
    ensures RescheduleDate(Some(now + Year), now) == Ok(Some(now + Year))
    ensures RescheduleDate(Some(now + Year + 1), now) == Err(DateTooFar)
  {
  }

  /** A date accepted now is still accepted at any later moment before it. */
  lemma RescheduleStaysValid(d: int, now: int, later: int)
    requires RescheduleDate(Some(d), now).Ok?
    requires now <= later < d
    ensures RescheduleDate(Some(d), later).Ok?
  {
  }

  /**
   * `BookingForm.clean_booking_date` as written: the missing date is
   * refused, but the method has no `return`, so a given date is cleaned to `None`.
   */
  function BookingDateAsWritten(date: Option<int>): (r: Result<Option<int>, FormError>)
    ensures r.Err? <==> date.None?
    ensures r.Err? ==> r.error == DateMissing
  {
    if date.None? then Err(DateMissing) else Ok(None)
  }

  /** Every booking date the form accepts is lost on the way out. */
  lemma BookingDateIsDropped(d: int)
    ensures BookingDateAsWritten(Some(d)) == Ok(None)
    ensures BookingDateAsWritten(Some(d)) != Ok(Some(d))
  {
  }

  /** `BookingForm.clean_booking_date` as evidently intended: the date itself, or the error. */
  function BookingDate(date: Option<int>): (r: Result<int, FormError>)
    ensures r.Err? <==> date.None?
    ensures r.Err? ==> r.error == DateMissing
    ensures r.Ok? ==> Some(r.value) == date
  {
    match date
    case None => Err(DateMissing)
    case Some(d) => Ok(d)
  }

  /** The corrected form fails exactly when the written one does. */
  lemma BookingDateAgreesOnErrors(date: Option<int>)
    ensures BookingDate(date).Err? <==> BookingDateAsWritten(date).Err?
  {
  }

  /** The fields `ProviderScheduleForm.clean` looks at. */
  datatype Schedule = Schedule(startTime: Option<nat>, endTime: Option<nat>, isWorkingDay: bool)

  /**
   * `ProviderScheduleForm.clean`: a working day needs both times, and its
   * start must come before its end; a day off passes whatever its times.
   */
  function CleanSchedule(s: Schedule): (r: Result<Schedule, FormError>)
    ensures r.Ok? <==> !s.isWorkingDay || (s.startTime.Some? && s.endTime.Some? && s.startTime.value < s.endTime.value)
    ensures r.Ok? ==> r.value == s
    ensures r == Err(TimesRequired) <==> s.isWorkingDay && (s.startTime.None? || s.endTime.None?)
  {
    if s.isWorkingDay && (s.startTime.None? || s.endTime.None?) then Err(TimesRequired)
    else if s.isWorkingDay && s.startTime.Some? && s.endTime.Some? && s.startTime.value >= s.endTime.value then
      Err(EndNotAfterStart)
    else Ok(s)
  }

  /** Equal start and end times are refused on a working day. */
  lemma EmptyShiftRefused(t: nat)
    ensures CleanSchedule(Schedule(Some(t), Some(t), true)) == Err(EndNotAfterStart)
  {
  }

  /** `ReviewForm.clean_rating`: accepted iff 0.5 <= rating <= 5. */
  function CleanRating(rating: real): (r: Result<real, FormError>)
    ensures r.Ok? <==> 0.5 <= rating <= 5.0
    ensures r.Ok? ==> r.value == rating
    ensures r.Err? ==> r.error == RatingOutOfRange
  {
    if rating < 0.5 || rating > 5.0 then Err(RatingOutOfRange) else Ok(rating)
  }

  /** Every star count the review model admits (1 to 5) passes the form. */
  lemma StarRatingsPass(stars: int)
    requires 1 <= stars <= 5
    ensures CleanRating(stars as real) == Ok(stars as real)
  {
  }
}
