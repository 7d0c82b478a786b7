/** Validation of the shop configuration (`core/config_schema.py`), as pydantic
    performs it: every field is checked, defaults fill absent optional fields,
    and all errors are reported together, in field order, each with the path of
    the offending field. Inputs are the decoded JSON with each key either absent
    (`None`) or present with a value of the declared type. */
module ConfigSchema {
  import opened Common
  import opened Text

  datatype RawService = RawService(name: Option<string>, durationMinutes: Option<int>, price: Option<Option<string>>)
  datatype RawBookingSlots = RawBookingSlots(intervalMinutes: Option<int>)
  datatype RawHours = RawHours(open: Option<string>, close: Option<string>)
  datatype RawCalendar = RawCalendar(icsPath: Option<string>)
  datatype RawRoot = RawRoot(
    shopName: Option<Option<string>>,
    services: Option<seq<RawService>>,
    bookingSlots: Option<RawBookingSlots>,
    hours: Option<RawHours>,
    calendar: Option<RawCalendar>)

  datatype ServiceConfig = ServiceConfig(name: string, durationMinutes: int, price: Option<string>)
  datatype BookingSlotsConfig = BookingSlotsConfig(intervalMinutes: int)
  datatype HoursConfig = HoursConfig(open: string, close: string)
  datatype CalendarConfig = CalendarConfig(icsPath: string)
  datatype RootConfig = RootConfig(
    shopName: Option<string>,
    services: seq<ServiceConfig>,
    bookingSlots: BookingSlotsConfig,
    hours: HoursConfig,
    calendar: CalendarConfig)

  /** One step of an error's location: a field name or a list index. */
  datatype LocPart = Key(key: string) | Index(index: nat)

  datatype Issue =
    | Missing          // a required field is absent
    | NotPositive      // `gt=0` violated
    | EmptyName        // "service name must not be empty"
    | PatternMismatch  // `pattern=r"^\d{2}:\d{2}$"` violated
    | NoServices       // "At least one service must be defined"

  datatype ConfigError = ConfigError(loc: seq<LocPart>, issue: Issue)

  type Checked<T> = Result<T, seq<ConfigError>>

  const DefaultDuration: int := 30
  const DefaultInterval: int := 30
  const DefaultShopName: string := "Mechanic Shop"

  /** Errors of a nested model, reported under the field that holds it. */
  function Within(prefix: seq<LocPart>, errs: seq<ConfigError>): (r: seq<ConfigError>)
    ensures |r| == |errs|
    ensures forall i :: 0 <= i < |r| ==> r[i].loc == prefix + errs[i].loc && r[i].issue == errs[i].issue
  {
    seq(|errs|, i requires 0 <= i < |errs| => ConfigError(prefix + errs[i].loc, errs[i].issue))
  }

  function ErrorsOf<T>(r: Checked<T>): seq<ConfigError> {
    if r.Ok? then [] else r.error
  }

  /** `Field(default, gt=0)` on an integer field. */
  function PositiveField(key: string, v: Option<int>, default: int): Checked<int> {
    match v
    case None => Ok(default)
    case Some(n) => if n > 0 then Ok(n) else Err([ConfigError([Key(key)], NotPositive)])
  }

  /** `ServiceConfig(**raw)`. */
  function ValidateService(raw: RawService): (r: Checked<ServiceConfig>)
    ensures r.Ok? <==> raw.name.Some? && Strip(raw.name.value) != ""
                       && (raw.durationMinutes.None? || raw.durationMinutes.value > 0)
    ensures r.Ok? ==> r.value.name == Strip(raw.name.value)
    ensures r.Ok? ==> r.value.durationMinutes == raw.durationMinutes.GetOr(DefaultDuration)
    ensures r.Ok? ==> r.value.price == raw.price.GetOr(None)
    ensures r.Err? ==> r.error != []
  {
    var nameErrs :=
      match raw.name
      case None => [ConfigError([Key("name")], Missing)]
      case Some(n) => if Strip(n) == "" then [ConfigError([Key("name")], EmptyName)] else [];
    var duration := PositiveField("duration_minutes", raw.durationMinutes, DefaultDuration);
    if nameErrs == [] && duration.Ok? then
      Ok(ServiceConfig(Strip(raw.name.value), duration.value, raw.price.GetOr(None)))
    else Err(nameErrs + ErrorsOf(duration))
  }

  /** The `List[ServiceConfig]` field, for the items from list index `first`
      on: every item is validated and the errors of all failing items are
      collected, each under its index. */
  function ValidateItems(items: seq<RawService>, first: nat): (r: Checked<seq<ServiceConfig>>)
    ensures r.Ok? ==> |r.value| == |items|
    ensures r.Err? ==> r.error != []
    decreases |items|
  {
    if items == [] then Ok([])
    else
      var head := ValidateService(items[0]);
      var tail := ValidateItems(items[1..], first + 1);
      if head.Ok? && tail.Ok? then Ok([head.value] + tail.value)
      else Err(Within([Index(first)], ErrorsOf(head)) + ErrorsOf(tail))
  }

  /** An accepted list holds every item, validated, in order. */
  lemma {:induction false} ValidItems(items: seq<RawService>, first: nat)
    requires ValidateItems(items, first).Ok?
    ensures forall i :: 0 <= i < |items| ==>
              ValidateService(items[i]).Ok? && ValidateItems(items, first).value[i] == ValidateService(items[i]).value
    decreases |items|
  {
    if items != [] {
      var r := ValidateItems(items, first);
      var head := ValidateService(items[0]);
      var tail := ValidateItems(items[1..], first + 1);
      assert head.Ok? && tail.Ok?;
      ValidItems(items[1..], first + 1);
      assert r == Ok([head.value] + tail.value);
      forall i | 0 <= i < |items|
        ensures ValidateService(items[i]).Ok? && r.value[i] == ValidateService(items[i]).value
      {
        if i > 0 {
          assert items[i] == items[1..][i - 1];
          assert r.value[i] == tail.value[i - 1];
        }
      }
    }
  }

  /** A list whose items are all accepted is accepted. */
  lemma {:induction false} ItemsAllValid(items: seq<RawService>, first: nat)
    requires forall i :: 0 <= i < |items| ==> ValidateService(items[i]).Ok?
    ensures ValidateItems(items, first).Ok?
    decreases |items|
  {
    if items != [] {
      forall i | 0 <= i < |items[1..]|
        ensures ValidateService(items[1..][i]).Ok?
      {
        assert items[1..][i] == items[i + 1];
      }
      ItemsAllValid(items[1..], first + 1);
      var head := ValidateService(items[0]);
      var tail := ValidateItems(items[1..], first + 1);
      assert head.Ok? && tail.Ok?;
      assert ValidateItems(items, first) == Ok([head.value] + tail.value);
    }
  }

  /** `^\d{2}:\d{2}$`: exactly two digits, a colon and two digits. */
  predicate ClockPattern(s: string) {
    |s| == 5 && ClockShapeAt(s, 0)
  }

  function PatternField(key: string, v: Option<string>): Checked<string> {
    match v
    case None => Err([ConfigError([Key(key)], Missing)])
    case Some(s) => if ClockPattern(s) then Ok(s) else Err([ConfigError([Key(key)], PatternMismatch)])
  }

  /** `HoursConfig(**raw)`. */
  function ValidateHours(raw: RawHours): (r: Checked<HoursConfig>)
    ensures r.Ok? <==> raw.open.Some? && ClockPattern(raw.open.value) && raw.close.Some? && ClockPattern(raw.close.value)
    ensures r.Ok? ==> r.value == HoursConfig(raw.open.value, raw.close.value)
    ensures r.Err? ==> r.error != []
  {
    var open := PatternField("open", raw.open);
    var close := PatternField("close", raw.close);
    if open.Ok? && close.Ok? then Ok(HoursConfig(open.value, close.value))
    else Err(ErrorsOf(open) + ErrorsOf(close))
  }

  /** `BookingSlotsConfig(**raw)`. */
  function ValidateBookingSlots(raw: RawBookingSlots): (r: Checked<BookingSlotsConfig>)
    ensures r.Ok? <==> raw.intervalMinutes.None? || raw.intervalMinutes.value > 0
    ensures r.Ok? ==> r.value.intervalMinutes == raw.intervalMinutes.GetOr(DefaultInterval)
  {
    match PositiveField("interval_minutes", raw.intervalMinutes, DefaultInterval)
    case Ok(n) => Ok(BookingSlotsConfig(n))
    case Err(e) => Err(e)
  }

  /** `CalendarConfig(**raw)`. */
  function ValidateCalendar(raw: RawCalendar): Checked<CalendarConfig> {
    match raw.icsPath
    case None => Err([ConfigError([Key("ics_path")], Missing)])
    case Some(p) => Ok(CalendarConfig(p))
  }

  /** A required nested model. */
  function Required<T>(key: string, v: Option<Checked<T>>): Checked<T> {
    match v
    case None => Err([ConfigError([Key(key)], Missing)])
    case Some(Ok(x)) => Ok(x)
    case Some(Err(e)) => Err(Within([Key(key)], e))
  }

  /** The `services` field: required, every item valid, and then not empty. */
  function ValidateServices(raw: Option<seq<RawService>>): Checked<seq<ServiceConfig>> {
    match raw
    case None => Err([ConfigError([Key("services")], Missing)])
    case Some(items) =>
      match ValidateItems(items, 0)
      case Err(e) => Err(Within([Key("services")], e))
      case Ok(list) => if list == [] then Err([ConfigError([Key("services")], NoServices)]) else Ok(list)
  }

  /** `RootConfig(**raw)`. */
  function ValidateRoot(raw: RawRoot): Checked<RootConfig> {
    var shop := raw.shopName.GetOr(Some(DefaultShopName));
    var services := ValidateServices(raw.services);
    var slots :=
      match raw.bookingSlots
      case None => Ok(BookingSlotsConfig(DefaultInterval))
      case Some(b) => Required("booking_slots", Some(ValidateBookingSlots(b)));
    var hours := Required("hours", if raw.hours.Some? then Some(ValidateHours(raw.hours.value)) else None);
    var calendar := Required("calendar", if raw.calendar.Some? then Some(ValidateCalendar(raw.calendar.value)) else None);
    if services.Ok? && slots.Ok? && hours.Ok? && calendar.Ok? then
      Ok(RootConfig(shop, services.value, slots.value, hours.value, calendar.value))
    else Err(ErrorsOf(services) + ErrorsOf(slots) + ErrorsOf(hours) + ErrorsOf(calendar))
  }

  /** What an accepted configuration guarantees: at least one service, each with
      a stripped non-empty name and a positive duration, a positive slot
      interval, and opening hours of the form `dd:dd`. */
  lemma AcceptedRoot(raw: RawRoot)
    requires ValidateRoot(raw).Ok?
    ensures var c := ValidateRoot(raw).value;
            && |c.services| >= 1
            && (forall i :: 0 <= i < |c.services| ==>
                  c.services[i].name != "" && Strip(c.services[i].name) == c.services[i].name
                  && c.services[i].durationMinutes > 0)
            && c.bookingSlots.intervalMinutes > 0
            && ClockPattern(c.hours.open) && ClockPattern(c.hours.close)
  {
    RootServices(raw);
    AcceptedItems(raw.services.value);
    RootFields(raw);
  }

  /** Every item of an accepted list has a stripped non-empty name and a
      positive duration. */
  lemma AcceptedItems(items: seq<RawService>)
    requires ValidateItems(items, 0).Ok?
    ensures var list := ValidateItems(items, 0).value;
            forall i :: 0 <= i < |list| ==>
              list[i].name != "" && Strip(list[i].name) == list[i].name && list[i].durationMinutes > 0
  {
    var list := ValidateItems(items, 0).value;
    ValidItems(items, 0);
    forall i | 0 <= i < |list|
      ensures list[i].name != "" && Strip(list[i].name) == list[i].name && list[i].durationMinutes > 0
    {
      StripIdempotent(items[i].name.value);
    }
  }

  /** An accepted root has a positive slot interval and well-formed hours. */
  lemma RootFields(raw: RawRoot)
    requires ValidateRoot(raw).Ok?
    ensures ValidateRoot(raw).value.bookingSlots.intervalMinutes > 0
    ensures ClockPattern(ValidateRoot(raw).value.hours.open) && ClockPattern(ValidateRoot(raw).value.hours.close)
  {
  }

  /** An accepted root holds the accepted, non-empty service list. */
  lemma RootServices(raw: RawRoot)
    requires ValidateRoot(raw).Ok?
    ensures raw.services.Some? && ValidateItems(raw.services.value, 0).Ok?
    ensures ValidateRoot(raw).value.services == ValidateItems(raw.services.value, 0).value != []
  {
    assert ValidateServices(raw.services).Ok?;
  }

  /** Absent optional fields take their defaults: the shop is called
      "Mechanic Shop" and slots are 30 minutes apart. */
  lemma RootDefaults(raw: RawRoot)
    requires ValidateRoot(raw).Ok?
    ensures raw.shopName.None? ==> ValidateRoot(raw).value.shopName == Some(DefaultShopName)
    ensures raw.bookingSlots.None? ==> ValidateRoot(raw).value.bookingSlots.intervalMinutes == DefaultInterval
    ensures raw.bookingSlots.Some? && raw.bookingSlots.value.intervalMinutes.None? ==>
              ValidateRoot(raw).value.bookingSlots.intervalMinutes == DefaultInterval
  {
  }

  /** A configuration is rejected exactly when some field is wrong, and a
      rejection always names at least one error. */
  lemma RootRejection(raw: RawRoot)
    ensures ValidateRoot(raw).Err? ==> ValidateRoot(raw).error != []
    ensures raw.services.Some? && raw.services.value == [] ==> ValidateRoot(raw).Err?
    ensures raw.hours.None? || raw.calendar.None? || raw.services.None? ==> ValidateRoot(raw).Err?
  {
    var r := ValidateRoot(raw);
    if r.Err? {
      var s := ValidateServices(raw.services);
      if s.Err? {
        match raw.services
        case None =>
        case Some(items) =>
          var v := ValidateItems(items, 0);
          if v.Err? { assert |Within([Key("services")], v.error)| == |v.error|; }
      } else if raw.bookingSlots.Some? && ValidateBookingSlots(raw.bookingSlots.value).Err? {
        var b := ValidateBookingSlots(raw.bookingSlots.value);
        assert |Within([Key("booking_slots")], b.error)| == 1;
      } else if raw.hours.Some? && ValidateHours(raw.hours.value).Err? {
        var h := ValidateHours(raw.hours.value);
        assert |Within([Key("hours")], h.error)| == |h.error|;
      }
    }
  }

  /** The configuration the test suite expects to be refused:
      `{"shop_name": "Broken Shop", "services": []}` fails on the empty service
      list and on the missing `hours` and `calendar`, in that order. */
  lemma BrokenShopRejected()
    ensures ValidateRoot(RawRoot(Some(Some("Broken Shop")), Some([]), None, None, None)) ==
            Err([ConfigError([Key("services")], NoServices),
                 ConfigError([Key("hours")], Missing),
                 ConfigError([Key("calendar")], Missing)])
  {
    assert ValidateItems([], 0) == Ok([]);
    assert ValidateServices(Some([])) == Err([ConfigError([Key("services")], NoServices)]);
    assert Required<HoursConfig>("hours", None) == Err([ConfigError([Key("hours")], Missing)]);
    assert Required<CalendarConfig>("calendar", None) == Err([ConfigError([Key("calendar")], Missing)]);
    var e1 := [ConfigError([Key("services")], NoServices)];
    var e3 := [ConfigError([Key("hours")], Missing)];
    var e4 := [ConfigError([Key("calendar")], Missing)];
    assert e1 + [] + e3 + e4 == e1 + e3 + e4;
    var raw := RawRoot(Some(Some("Broken Shop")), Some([]), None, None, None);
    assert ErrorsOf(ValidateServices(raw.services)) == e1;
    assert ErrorsOf<BookingSlotsConfig>(Ok(BookingSlotsConfig(DefaultInterval))) == [];
    assert ErrorsOf(Required<HoursConfig>("hours", None)) == e3;
    assert ValidateRoot(raw).Err?;
    assert ValidateRoot(raw).error == e1 + e3 + e4;
    assert e1 + e3 + e4 == [e1[0], e3[0], e4[0]];
  }

  /** The hours pattern checks the shape only: "9:00" is refused, "99:99" accepted. */
  lemma HoursPatternIsShapeOnly()
    ensures ValidateHours(RawHours(Some("9:00"), Some("17:00"))).Err?
    ensures ValidateHours(RawHours(Some("99:99"), Some("17:00"))) == Ok(HoursConfig("99:99", "17:00"))
  {
  }

  /** A name made of whitespace is refused. */
  lemma BlankServiceName()
    ensures ValidateService(RawService(Some("   "), None, None)) == Err([ConfigError([Key("name")], EmptyName)])
  {
    var blank := "   ";
    StripBlank(blank);
    var raw := RawService(Some("   "), None, None);
    assert ErrorsOf(PositiveField("duration_minutes", raw.durationMinutes, DefaultDuration)) == [];
    assert [ConfigError([Key("name")], EmptyName)] + [] == [ConfigError([Key("name")], EmptyName)];
  }

  /** A padded name is stored stripped, with the default duration and no price. */
  lemma PaddedServiceName()
    ensures ValidateService(RawService(Some(" Oil Change "), None, None)) == Ok(ServiceConfig("Oil Change", 30, None))
  {
    StripOilChange();
  }

  lemma StripOilChange()
    ensures Strip(" Oil Change ") == "Oil Change"
  {
    var u := "Oil Change";
    assert " Oil Change " == [' '] + u + [' '];
    StripSpaced(u);
  }
}
