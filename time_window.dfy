/**
 * Resolution of the analysis time window (`TrendAnalyzer.calculate_time_range`).
 *
 * Instants are whole seconds. The current time and the parsed custom dates are inputs:
 * reading the clock and `datetime.strptime` are outside the model, and a date string
 * that fails to parse arrives as `Malformed`.
 */
module TimeWindow {

  const Hour := 3600
  const Day := 24 * Hour

  /** One of the CUSTOM_START_DATE / CUSTOM_END_DATE settings: empty, present but not a
      valid `YYYY-MM-DD` date, or the instant (midnight) it parses to. */
  datatype DateSetting = Unset | Malformed | Parsed(instant: int)

  /** The four time settings, read once from the environment. */
  datatype TimeConfig = TimeConfig(
    customStart: DateSetting,
    customEnd: DateSetting,
    historyDays: int,
    historyHours: int)

  datatype Mode = CustomRange | FromDate | Duration

  /** The resolved window; the human-readable description is not modelled. */
  datatype Window = Window(start: int, end: int, mode: Mode)

  function Min(a: int, b: int): int { if a <= b then a else b }

  /** Length of the fallback window in hours: days and hours combined, 24 when that is
      not positive. */
  function TotalHours(days: int, hours: int): int {
    var total := days * 24 + hours;
    if total <= 0 then 24 else total
  }

  /** The window for `config` at time `now`: an explicit range when both dates are set
      and parse, a range from the start date when only that one is set and parses, and
      otherwise the last `TotalHours` hours. Whatever the settings, the window never
      runs backwards and never ends after `now`. */
  function Resolve(config: TimeConfig, now: int): (w: Window)
    ensures w.start <= w.end <= now
    ensures w.mode == CustomRange <==> config.customStart.Parsed? && config.customEnd.Parsed?
    ensures w.mode == FromDate <==> config.customStart.Parsed? && config.customEnd.Unset?
    ensures w.mode == Duration ==> w.start < w.end == now
  {
    if config.customStart != Unset && config.customEnd != Unset then
      match (config.customStart, config.customEnd)
      case (Parsed(s), Parsed(e)) =>
        var end := Min(e, now);
        var start := if s > end then end - Day else s;
        Window(start, end, CustomRange)
      case _ => Fallback(config, now)
    else if config.customStart != Unset then
      match config.customStart
      case Parsed(s) => Window(if s > now then now - Day else s, now, FromDate)
      case _ => Fallback(config, now)
    else
      Fallback(config, now)
  }

  /** The duration rule, reached when no custom rule applies or its date did not parse. */
  function Fallback(config: TimeConfig, now: int): (w: Window)
    ensures w.mode == Duration && w.end == now && w.start < now
  {
    Window(now - TotalHours(config.historyDays, config.historyHours) * Hour, now, Duration)
  }

  /** A custom range that already lies in the past and runs forwards is kept verbatim. */
  lemma CustomRangeVerbatim(config: TimeConfig, now: int)
    requires config.customStart.Parsed? && config.customEnd.Parsed?
    requires config.customStart.instant <= config.customEnd.instant <= now
    ensures Resolve(config, now) == Window(config.customStart.instant, config.customEnd.instant, CustomRange)
  {
  }

  /** A custom range ends at the earlier of its end date and now; a start after that end
      is replaced by one day before the end. */
  lemma CustomRangeClamp(config: TimeConfig, now: int)
    requires config.customStart.Parsed? && config.customEnd.Parsed?
    ensures var end := Min(config.customEnd.instant, now);
      && Resolve(config, now).end == end
      && Resolve(config, now).start ==
           (if config.customStart.instant > end then end - Day else config.customStart.instant)
  {
  }

  /** With only a start date, the window ends now; a start in the future becomes one day
      before now. */
  lemma FromDateClamp(config: TimeConfig, now: int)
    requires config.customStart.Parsed? && config.customEnd.Unset?
    ensures Resolve(config, now).end == now
    ensures Resolve(config, now).start ==
      (if config.customStart.instant > now then now - Day else config.customStart.instant)
  {
  }

  /** Both dates set but one of them malformed: the start-only rule is skipped as well
      and the duration rule applies. */
  lemma MalformedRangeFallsThrough(config: TimeConfig, now: int)
    requires config.customStart != Unset && config.customEnd != Unset
    requires config.customStart == Malformed || config.customEnd == Malformed
    ensures Resolve(config, now) == Fallback(config, now)
  {
  }

  /** The duration rule covers `days * 24 + hours` hours back from now, or 24 hours when
      that sum is not positive. */
  lemma DurationWindow(config: TimeConfig, now: int)
    requires !(config.customStart.Parsed? && (config.customEnd.Parsed? || config.customEnd.Unset?))
    ensures var total := config.historyDays * 24 + config.historyHours;
      && Resolve(config, now).mode == Duration
      && Resolve(config, now).end == now
      && Resolve(config, now).start == now - (if total <= 0 then 24 else total) * Hour
  {
  }
}
