/** The settings dictionary the assistant and the slot extractor read with
    `config.get(...)`: every key may be absent. */
module Settings {
  import opened Common
  import opened ConfigSchema

  /** One entry of `config["services"]`; `price` is absent, `None` or a string. */
  datatype ServiceEntry = ServiceEntry(name: string, price: Option<Option<string>>, durationMinutes: Option<int>)
  datatype HoursEntry = HoursEntry(open: Option<string>, close: Option<string>)
  datatype SlotsEntry = SlotsEntry(intervalMinutes: Option<int>)
  datatype CalendarEntry = CalendarEntry(icsPath: Option<string>)

  datatype AppConfig = AppConfig(
    services: Option<seq<ServiceEntry>>,
    hours: Option<HoursEntry>,
    bookingSlots: Option<SlotsEntry>,
    calendar: Option<CalendarEntry>)

  /** The dictionary `load_env_variables()` returns, which `assistant.py`
      binds to `config`: it holds only `OPENAI_API_KEY`, none of these keys. */
  function EnvConfig(): AppConfig {
    AppConfig(None, None, None, None)
  }

  /** The dictionary form (`model_dump()`) of a validated configuration. */
  function FromRoot(c: RootConfig): (a: AppConfig)
    ensures a.services.Some? && |a.services.value| == |c.services|
    ensures forall i :: 0 <= i < |c.services| ==> a.services.value[i].name == c.services[i].name
    ensures forall i :: 0 <= i < |c.services| ==> a.services.value[i].durationMinutes == Some(c.services[i].durationMinutes)
    ensures a.hours == Some(HoursEntry(Some(c.hours.open), Some(c.hours.close)))
    ensures a.bookingSlots == Some(SlotsEntry(Some(c.bookingSlots.intervalMinutes)))
    ensures a.calendar == Some(CalendarEntry(Some(c.calendar.icsPath)))
  {
    AppConfig(
      Some(seq(|c.services|, i requires 0 <= i < |c.services| =>
        ServiceEntry(c.services[i].name, Some(c.services[i].price), Some(c.services[i].durationMinutes)))),
      Some(HoursEntry(Some(c.hours.open), Some(c.hours.close))),
      Some(SlotsEntry(Some(c.bookingSlots.intervalMinutes))),
      Some(CalendarEntry(Some(c.calendar.icsPath))))
  }

  /** `config.get("services", [])`. */
  function Services(cfg: AppConfig): seq<ServiceEntry> {
    cfg.services.GetOr([])
  }

  /** `[s["name"] for s in config.get("services", [])]`. */
  function ServiceNames(cfg: AppConfig): (names: seq<string>)
    ensures |names| == |Services(cfg)|
    ensures forall i :: 0 <= i < |names| ==> names[i] == Services(cfg)[i].name
  {
    var svcs := Services(cfg);
    seq(|svcs|, i requires 0 <= i < |svcs| => svcs[i].name)
  }

  /** `config.get("booking_slots", {}).get("interval_minutes", 30)`. */
  function IntervalMinutes(cfg: AppConfig): int {
    match cfg.bookingSlots
    case None => DefaultInterval
    case Some(b) => b.intervalMinutes.GetOr(DefaultInterval)
  }
}
