/** The `BookingChecker` classes of selenium/actions.py and
    browser_manager/actions.py: the tri-state availability ladder over one
    loaded page, the navigate → service → form → ladder chain, the calendar
    check, and the service and form steps.

    Every browser observation is a parameter: what each wait finds, what the
    calendar's active days carry as `data-date` (an attribute that may be
    missing), and the exception a driver call raises. The two classes share
    the ladder: the `check_availability` at browser_manager/actions.py:88-129
    is the one that counts, since it is defined after, and so replaces, the
    proxy at browser_manager/actions.py:14-19, and it is the ladder of
    selenium/actions.py:74-115 word for word. */
module BookingActions {
  import opened Common

  const NoSlotsText: string := "Нет доступных слотов"
  const DatesPrefix: string := "Доступны слоты на даты: "
  const EmptyCalendarText: string := "Календарь без доступных дат"
  const DateSelectionText: string := "Обнаружены элементы выбора даты"
  const UndeterminedText: string := "Не удалось определить наличие слотов"
  const CheckErrorPrefix: string := "Ошибка проверки: "

  /** A checker's verdict: `True`, `False` or `None`, and the message. */
  datatype Check = Check(available: Availability, message: string)

  // ---------------------------------------------------------------------------
  // `data-date` values

  /** The `data-date` values that are present, in page order. */
  function Present(dates: seq<Option<string>>): (r: seq<string>)
    ensures |r| <= |dates|
    ensures forall d :: d in r <==> Some(d) in dates
    ensures (forall i :: 0 <= i < |dates| ==> dates[i].Some?) ==> |r| == |dates|
  {
    if dates == [] then []
    else
      (if dates[0].Some? then [dates[0].value] else []) + Present(dates[1..])
  }

  /** The position of the first missing `data-date`, if any. */
  function FirstNone(dates: seq<Option<string>>): (r: Option<nat>)
    ensures r.None? <==> forall i :: 0 <= i < |dates| ==> dates[i].Some?
    ensures r.Some? ==> r.value < |dates| && dates[r.value].None?
                        && forall i :: 0 <= i < r.value ==> dates[i].Some?
  {
    if dates == [] then None
    else if dates[0].None? then Some(0)
    else match FirstNone(dates[1..])
      case None => None
      case Some(k) => Some(k + 1)
  }

  /** The `TypeError` text of `', '.join(dates)` when item `k` is `None`. */
  function JoinTypeError(k: nat): string {
    "sequence item " + NatToString(k) + ": expected str instance, NoneType found"
  }

  // ---------------------------------------------------------------------------
  // check_availability

  /** What the page shows within each five-second wait: the "no free
      appointments" banner; the `calendar` element with its active days'
      `data-date` attributes, or `None` when it does not appear; and whether
      a `#dates` element appears. `PageRaised` is any other exception. */
  datatype PageObs =
    | Page(banner: bool, calendar: Option<seq<Option<string>>>, datesElement: bool)
    | PageRaised(error: string)

  /** Whether the ladder reaches the calendar's active days. */
  predicate ShowsDays(p: PageObs) {
    p.Page? && !p.banner && p.calendar.Some? && p.calendar.value != []
  }

  /** `check_availability`. The banner is looked for first, then the
      calendar, then the `#dates` element. Joining the dates raises when one
      is missing, and that `TypeError` reaches the outer handler. */
  function CheckAvailability(p: PageObs): (r: Check)
    ensures p.PageRaised? ==> r == Check(Undetermined, CheckErrorPrefix + p.error)
    ensures p.Page? && p.banner ==> r == Check(Unavailable, NoSlotsText)
    ensures r.available == Available <==>
      p.Page? && !p.banner &&
      (if p.calendar.Some? then ShowsDays(p) && FirstNone(p.calendar.value).None? else p.datesElement)
    ensures r.available == Unavailable <==> p.Page? && (p.banner || p.calendar == Some([]))
    ensures ShowsDays(p) && r.available == Available ==>
      r.message == DatesPrefix + Join(Present(p.calendar.value), ", ")
    ensures ShowsDays(p) && FirstNone(p.calendar.value).Some? ==>
      r == Check(Undetermined, CheckErrorPrefix + JoinTypeError(FirstNone(p.calendar.value).value))
  {
    match p
    case PageRaised(e) => Check(Undetermined, CheckErrorPrefix + e)
    case Page(banner, calendar, datesElement) =>
      if banner then Check(Unavailable, NoSlotsText)
      else if calendar.Some? then
        if calendar.value != [] then
          match FirstNone(calendar.value)
          case Some(k) => Check(Undetermined, CheckErrorPrefix + JoinTypeError(k))
          case None => Check(Available, DatesPrefix + Join(Present(calendar.value), ", "))
        else Check(Unavailable, EmptyCalendarText)
      else if datesElement then Check(Available, DateSelectionText)
      else Check(Undetermined, UndeterminedText)
  }

  /** The banner decides whatever else the page shows: two pages with the
      banner get the same verdict. */
  lemma BannerHidesRest(p: PageObs, q: PageObs)
    requires p.Page? && p.banner && q.Page? && q.banner
    ensures CheckAvailability(p) == CheckAvailability(q)
    ensures !CheckAvailability(p).available.Truthy()
  {
  }

  /** A calendar with active days lists every date it carries: each listed
      date is one of the days', and each day's date is listed. */
  lemma ListedDatesAreTheDays(p: PageObs)
    requires ShowsDays(p) && CheckAvailability(p).available == Available
    ensures forall d :: d in Present(p.calendar.value) <==> Some(d) in p.calendar.value
    ensures |Present(p.calendar.value)| == |p.calendar.value|
  {
  }

  // ---------------------------------------------------------------------------
  // The service and form steps

  /** Which class the checker is. The class of browser_manager/actions.py
      never stores its `service_type` argument. */
  datatype Checker = SeleniumChecker(serviceType: string) | ManagerChecker

  /** `self.service_type`: `None` stands for the `AttributeError` of the
      missing attribute. */
  function ServiceTypeOf(c: Checker): Option<string> {
    match c
    case SeleniumChecker(t) => Some(t)
    case ManagerChecker => None
  }

  /** `select_service`: `clickable(t)` is whether the button naming service
      `t` becomes clickable within ten seconds and takes the click. Every
      failure, the missing attribute included, is caught and gives `False`. */
  function SelectService(c: Checker, clickable: string -> bool): (ok: bool)
    ensures ok <==> c.SeleniumChecker? && clickable(c.serviceType)
  {
    match ServiceTypeOf(c)
    case None => false
    case Some(t) => clickable(t)
  }

  /** The class of browser_manager/actions.py cannot select a service,
      whatever the page offers. */
  lemma ManagerNeverSelectsService(clickable: string -> bool)
    ensures !SelectService(ManagerChecker, clickable)
  {
  }

  /** What the form step finds: the four elements it looks up, in order, and
      the exception of a later call (`clear`, `send_keys`, `click`). */
  datatype FormObs = Form(firstName: bool, lastName: bool, email: bool, weiter: bool, raised: bool)

  /** `fill_form`: `True` only when every lookup finds its element and no
      later call raises. */
  function FillForm(f: FormObs): (ok: bool)
    ensures ok ==> f.firstName && f.lastName && f.email && f.weiter
    ensures !f.firstName || !f.lastName || !f.email || !f.weiter || f.raised ==> !ok
  {
    f.firstName && f.lastName && f.email && f.weiter && !f.raised
  }

  // ---------------------------------------------------------------------------
  // perform_full_check

  const StepFailures: seq<string> :=
    ["Не удалось перейти на сайт", "Не удалось выбрать услугу", "Не удалось заполнить форму"]

  /** The chain's outcome and how many of its four steps ran. */
  datatype FullCheck = FullCheck(check: Check, stepsRun: nat)

  /** Whether step `k` (0: navigate, 1: service, 2: form) succeeds. */
  function StepOk(k: nat, navigated: bool, selected: bool, filled: bool): bool
    requires k < 3
  {
    if k == 0 then navigated else if k == 1 then selected else filled
  }

  /** `perform_full_check` of selenium/actions.py: `navigated` is whether
      `driver.get` returned, `selected` and `filled` the results of the
      service and form steps. The first failing step ends the chain with its
      message and a `None` verdict; the later steps do not run. */
  function PerformFullCheck(navigated: bool, selected: bool, filled: bool, page: PageObs): (r: FullCheck)
    ensures 1 <= r.stepsRun <= 4
    ensures forall k :: 0 <= k < r.stepsRun - 1 ==> StepOk(k, navigated, selected, filled)
    ensures r.stepsRun < 4 ==>
      !StepOk(r.stepsRun - 1, navigated, selected, filled)
      && r.check == Check(Undetermined, StepFailures[r.stepsRun - 1])
    ensures r.stepsRun == 4 ==> r.check == CheckAvailability(page)
  {
    if !navigated then FullCheck(Check(Undetermined, StepFailures[0]), 1)
    else if !selected then FullCheck(Check(Undetermined, StepFailures[1]), 2)
    else if !filled then FullCheck(Check(Undetermined, StepFailures[2]), 3)
    else FullCheck(CheckAvailability(page), 4)
  }

  /** The page is looked at only when all three steps succeed, and then the
      chain answers exactly as the ladder does. */
  lemma FullCheckReachesLadder(navigated: bool, selected: bool, filled: bool, page: PageObs)
    ensures PerformFullCheck(navigated, selected, filled, page).stepsRun == 4 <==> navigated && selected && filled
    ensures PerformFullCheck(navigated, selected, filled, page).check.available == Available ==>
      navigated && selected && filled && CheckAvailability(page).available == Available
  {
  }

  // ---------------------------------------------------------------------------
  // check_calendar_availability

  /** The `SELECTORS` name as the method sees it: undefined in
      selenium/actions.py, or a dictionary of CSS selectors. */
  datatype Selectors = Undefined | Defined(table: map<string, string>)

  /** What the twenty-second wait for the calendar container gives: a
      timeout, the container with its active days' `data-date` attributes,
      or another exception. */
  datatype CalendarObs = CalendarTimeout | CalendarLoaded(days: seq<Option<string>>) | CalendarRaised(error: string)

  /** The verdict `(bool, message)` of the calendar check. */
  datatype Verdict = Verdict(found: bool, message: string)

  const CalendarTimeoutText: string := "Таймаут при загрузке календаря"
  const NameErrorText: string := "Ошибка: name 'SELECTORS' is not defined"

  /** `str(KeyError(key))`: the key between quotes. */
  function KeyErrorText(key: string): string {
    "Ошибка: '" + key + "'"
  }

  /** `check_calendar_availability`. The container's selector is looked up
      before the wait starts and the day selector after it ends; a failed
      lookup is caught by the generic handler. Days with no `data-date` are
      dropped before joining. */
  function CheckCalendar(selectors: Selectors, obs: CalendarObs): (r: Verdict)
    ensures selectors.Undefined? ==> r == Verdict(false, NameErrorText)
    ensures r.found ==> selectors.Defined? && obs.CalendarLoaded? && obs.days != []
    ensures r.found ==> r.message == DatesPrefix + Join(Present(obs.days), ", ")
  {
    match selectors
    case Undefined => Verdict(false, NameErrorText)
    case Defined(table) =>
      if "calendar_container" !in table then Verdict(false, KeyErrorText("calendar_container"))
      else match obs
        case CalendarTimeout => Verdict(false, CalendarTimeoutText)
        case CalendarRaised(e) => Verdict(false, "Ошибка: " + e)
        case CalendarLoaded(days) =>
          if "available_day" !in table then Verdict(false, KeyErrorText("available_day"))
          else if days != [] then Verdict(true, DatesPrefix + Join(Present(days), ", "))
          else Verdict(false, EmptyCalendarText)
  }

  /** As written, selenium/actions.py never imports `SELECTORS`: whatever the
      calendar shows, the check ends in the generic handler with a
      `NameError`. */
  lemma CalendarCheckAlwaysNameError(obs: CalendarObs)
    ensures !CheckCalendar(Undefined, obs).found
    ensures CheckCalendar(Undefined, obs).message == NameErrorText
  {
  }

  /** The dictionary of config/config.py:59-69. */
  const ConfigSelectors: map<string, string> := map[
    "modal_button" := ".btn-primary",
    "category_button" := ".row:nth-child(3) > .col-12:nth-child(3) .btn",
    "service_button" := "#termin147 .btn",
    "continue_button" := ".LBV-choosebutton",
    "privacy_checkbox" := "label",
    "next_button" := "#weiterbutton",
    "firstname" := "#vorname",
    "lastname" := "#nachname",
    "email" := "#email"]

  /** Importing the configuration's dictionary would not be enough: it has no
      `calendar_container` entry. */
  lemma ConfigSelectorsLackCalendar(obs: CalendarObs)
    ensures CheckCalendar(Defined(ConfigSelectors), obs) == Verdict(false, KeyErrorText("calendar_container"))
  {
    assert "calendar_container" !in ConfigSelectors by {
      assert "calendar_container" != "modal_button" && "calendar_container" != "category_button";
      assert "calendar_container" != "service_button" && "calendar_container" != "continue_button";
      assert "calendar_container" != "privacy_checkbox" && "calendar_container" != "next_button";
      assert "calendar_container" != "firstname" && "calendar_container" != "lastname";
      assert "calendar_container" != "email";
    }
  }

  /** With both selectors defined, the check does what its comments say: a
      timeout gives `False`; a loaded calendar gives `True` exactly when it
      has active days, listing every date that is present and no other. */
  lemma CalendarListsPresentDates(table: map<string, string>, obs: CalendarObs)
    requires "calendar_container" in table && "available_day" in table
    ensures obs.CalendarTimeout? ==> CheckCalendar(Defined(table), obs) == Verdict(false, CalendarTimeoutText)
    ensures obs.CalendarLoaded? ==> (CheckCalendar(Defined(table), obs).found <==> obs.days != [])
    ensures obs.CalendarLoaded? && obs.days == [] ==>
      CheckCalendar(Defined(table), obs) == Verdict(false, EmptyCalendarText)
    ensures obs.CalendarLoaded? && obs.days != [] ==>
      exists listed ::
        CheckCalendar(Defined(table), obs).message == DatesPrefix + Join(listed, ", ")
        && (forall d :: d in listed <==> Some(d) in obs.days)
  {
    if obs.CalendarLoaded? && obs.days != [] {
      var listed := Present(obs.days);
      assert CheckCalendar(Defined(table), obs).message == DatesPrefix + Join(listed, ", ");
    }
  }
}
