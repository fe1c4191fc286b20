/** Classification of a discontinuity between two adjacent closed candles. */
module CandleGap {
  import opened UtcTime
  import opened CandleClock

  datatype GapClass = Normal | ProviderMarketClosure | IntrasessionDataGap | ProviderAlignmentTransition | Unresolved

  predicate ClosesForWeekend(t: Instant) {
    (Weekday(t) == 4 && HourOfDay(t) >= 15) || Weekday(t) == 5
  }

  predicate OpensAfterWeekend(t: Instant) {
    Weekday(t) == 6 || (Weekday(t) == 0 && HourOfDay(t) <= 3)
  }

  function Classify(prevClose: Instant, nextOpen: Instant, tf: Timeframe): GapClass {
    var diff := nextOpen - prevClose;
    if diff <= 0 then Normal
    else if diff > 14 * DAY then Unresolved
    else if ClosesForWeekend(prevClose) && OpensAfterWeekend(nextOpen) && 20 * HOUR <= diff <= 65 * HOUR then
      ProviderMarketClosure
    else if diff <= 75 * MINUTE && HourOfDay(prevClose) in {21, 22} then ProviderMarketClosure
    else if tf == H4 && 3 * HOUR <= diff <= 5 * HOUR && diff != 4 * HOUR then ProviderAlignmentTransition
    else if Weekday(prevClose) <= 4 && Weekday(nextOpen) <= 4 then IntrasessionDataGap
    else Unresolved
  }

  /** A Friday from 15:00 or a Saturday, and then a Sunday or a Monday up to 03:59, 20 to 65 hours apart. */
  predicate SpansWeekend(prevClose: Instant, nextOpen: Instant) {
    && prevClose + 20 * HOUR <= nextOpen <= prevClose + 65 * HOUR
    && ((Weekday(prevClose) == 4 && HourOfDay(prevClose) >= 15) || Weekday(prevClose) == 5)
    && (Weekday(nextOpen) == 6 || (Weekday(nextOpen) == 0 && HourOfDay(nextOpen) <= 3))
  }

  /** At most 75 minutes from the hours of the daily break. */
  predicate SpansBreak(prevClose: Instant, nextOpen: Instant) {
    prevClose < nextOpen <= prevClose + 75 * MINUTE && HourOfDay(prevClose) in {21, 22}
  }

  /** Which gaps count as a market closure, as missing data, and as a shift of the 4h grid. */
  lemma GapClasses(prevClose: Instant, nextOpen: Instant, tf: Timeframe)
    ensures
      var closure := SpansWeekend(prevClose, nextOpen) || SpansBreak(prevClose, nextOpen);
      var gap := nextOpen - prevClose;
      var shift := tf == H4 && (3 * HOUR <= gap < 4 * HOUR || 4 * HOUR < gap <= 5 * HOUR);
      var weekdays := Weekday(prevClose) < 5 && Weekday(nextOpen) < 5;
      && (Classify(prevClose, nextOpen, tf) == Normal <==> nextOpen <= prevClose)
      && (Classify(prevClose, nextOpen, tf) == ProviderMarketClosure <==> closure)
      && (Classify(prevClose, nextOpen, tf) == ProviderAlignmentTransition <==> !closure && shift)
      && (Classify(prevClose, nextOpen, tf) == IntrasessionDataGap <==>
            0 < gap <= 14 * DAY && !closure && !shift && weekdays)
  {
  }
}
