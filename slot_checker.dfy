/** core/slot_checker.py: date extraction from the calendar, the three-way
    choice between an alert and the two silent status updates, and the
    `start_monitoring` loop.

    The calendar is observed as the `data-date` attributes of its active days
    (`None` for a missing attribute), or `None` when the calendar element is
    not on the page. Messages handed to the notification manager are returned
    as `SlotAction`s. */
module SlotChecker {
  import opened Common
  import DateUtils

  /** `check_interval` in the default settings, in seconds. */
  const DefaultCheckInterval: int := 300
  const DelaySpread: int := 60

  /** `core/browser.py`'s `wait_for_element` raises `BrowserException` when the
      calendar does not appear, and `_check_availability` wraps it. */
  const CalendarMissingError: string := "Failed to check slots: Element not found: ('class name', 'calendar')"
  /** What the `except` clause of `start_monitoring` raises: the method it
      calls is not defined on the class. */
  const NotifyErrorMissing: string := "'SlotChecker' object has no attribute '_notify_error'"

  // ---------------------------------------------------------------------------
  // _check_availability

  datatype CheckResult = Checked(available: bool, dates: seq<string>) | CheckFailed(error: string)

  /** The `data-date` values that are present and non-empty, in page order. */
  function ActiveDates(days: seq<Option<string>>): (r: seq<string>)
    ensures |r| <= |days|
    ensures forall d :: d in r ==> d != "" && Some(d) in days
    ensures forall d :: Some(d) in days && d != "" ==> d in r
  {
    if days == [] then []
    else
      var rest := ActiveDates(days[1..]);
      assert forall x :: x in days[1..] ==> x in days;
      assert forall x :: x in days ==> x == days[0] || x in days[1..];
      match days[0]
      case Some(d) => if d != "" then [d] + rest else rest
      case None => rest
  }

  /** Extraction keeps page order: the dates of two stretches of days are the
      dates of the first followed by those of the second. */
  lemma {:induction false} ActiveDatesAppend(a: seq<Option<string>>, b: seq<Option<string>>)
    ensures ActiveDates(a + b) == ActiveDates(a) + ActiveDates(b)
  {
    if a == [] {
      assert a + b == b;
    } else {
      assert (a + b)[0] == a[0];
      assert (a + b)[1..] == a[1..] + b;
      ActiveDatesAppend(a[1..], b);
    }
  }

  /** What `_check_availability` returns for a calendar observation: a missing
      calendar raises; otherwise `available` is exactly whether any date was
      found. */
  function CalendarResult(calendar: Option<seq<Option<string>>>): (r: CheckResult)
    ensures r.CheckFailed? <==> calendar.None?
    ensures r.Checked? ==> r.dates == ActiveDates(calendar.value) && (r.available <==> r.dates != [])
  {
    match calendar
    case None => CheckFailed(CalendarMissingError)
    case Some(days) => var dates := ActiveDates(days); Checked(dates != [], dates)
  }

  /** `_check_availability`. */
  method CheckAvailability(calendar: Option<seq<Option<string>>>) returns (r: CheckResult)
    ensures r == CalendarResult(calendar)
  {
    if calendar.None? {
      return CheckFailed(CalendarMissingError);
    }
    var days := calendar.value;
    if |days| == 0 {
      return Checked(false, []);
    }
    var dates: seq<string> := [];
    var i := 0;
    while i < |days|
      invariant 0 <= i <= |days|
      invariant dates == ActiveDates(days[..i])
    {
      ActiveDatesAppend(days[..i], [days[i]]);
      assert days[..i + 1] == days[..i] + [days[i]];
      match days[i] {
        case Some(d) =>
          if d != "" {
            dates := dates + [d];
          }
        case None =>
      }
      i := i + 1;
    }
    assert days[..i] == days;
    r := Checked(|dates| > 0, dates);
  }

  // ---------------------------------------------------------------------------
  // The pure helpers

  /** `_check_dates_in_range`: the shortcut for an empty list or `'any'` agrees
      with the date matcher, so the result is the matcher's. */
  function CheckDatesInRange(dates: seq<string>, preferredRange: string, now: int): (r: bool)
    ensures dates == [] || preferredRange == "any" ==> r
    ensures r == DateUtils.CheckIfDatesInRange(dates, preferredRange, now)
  {
    if dates == [] || preferredRange == "any" then true
    else DateUtils.CheckIfDatesInRange(dates, preferredRange, now)
  }

  const AnyLabel: string := "любой период"

  /** `_get_range_text`: the dictionary lookup with the `'any'` label as the
      default. */
  function GetRangeText(preferredRange: string): (t: string)
    ensures t in ["неделя", "две недели", "месяц", AnyLabel]
    ensures t == AnyLabel <==> preferredRange !in ["week", "two_weeks", "month"]
  {
    if preferredRange == "week" then "неделя"
    else if preferredRange == "two_weeks" then "две недели"
    else if preferredRange == "month" then "месяц"
    else if preferredRange == "any" then AnyLabel
    else AnyLabel
  }

  /** `_get_random_delay`: `randint(check_interval - 60, check_interval + 60)`. */
  function GetRandomDelay(checkInterval: int, draw: int): (d: int)
    ensures checkInterval - DelaySpread <= d <= checkInterval + DelaySpread
  {
    RandInt(checkInterval - DelaySpread, checkInterval + DelaySpread, draw)
  }

  // ---------------------------------------------------------------------------
  // Messages and the three-way decision

  function SlotsFoundText(dates: seq<string>, rangeText: string): string {
    "🎯 *Найдены доступные слоты!*\n\n📅 Даты: " + Join(dates, ", ")
    + "\n🔍 Ваш диапазон: " + rangeText + "\n\n_Мониторинг продолжает работать_"
  }

  const StatusHeader: string := "ℹ️ *Статус мониторинга*\n\n"
  const FoundDatesLabel: string := "📅 Найдены даты: "
  const NoSlotsLabel: string := ['❌'] + " Доступных слотов не найдено\n🔍 Ваш диапазон: "

  /** `_update_status`'s text: the "dates NOT in range" form exactly when
      dates were given, the "no slots" form otherwise. */
  function StatusText(dates: seq<string>, rangeText: string): (r: string)
    ensures StartsWith(r, StatusHeader)
    ensures StartsWith(r, StatusHeader + FoundDatesLabel) <==> dates != []
  {
    var body := if dates != [] then
      FoundDatesLabel + Join(dates, ", ")
      + "\n⚠️ Даты НЕ в выбранном диапазоне\n🔍 Ваш диапазон: " + rangeText
    else
      NoSlotsLabel + rangeText;
    var r := StatusHeader + body;
    assert r[..|StatusHeader|] == StatusHeader;
    assert |FoundDatesLabel| <= |body| ==> r[..|StatusHeader + FoundDatesLabel|] == StatusHeader + body[..|FoundDatesLabel|];
    assert FoundDatesLabel[0] != NoSlotsLabel[0];
    assert dates == [] ==> r[|StatusHeader|] == NoSlotsLabel[0];
    assert (StatusHeader + FoundDatesLabel)[|StatusHeader|] == FoundDatesLabel[0];
    r
  }

  /** What one check hands to the notification manager. */
  datatype SlotAction =
    | Alert(chatId: int, text: string, disableNotification: bool)
    | StatusUpdate(chatId: int, text: string)
    | ErrorNotice(chatId: int, error: string)

  datatype Decision = NotifySlots | UpdateWithDates | UpdateNoSlots

  /** The branch `start_monitoring` takes on a completed check. */
  function Decide(available: bool, dates: seq<string>, preferredRange: string, now: int): (d: Decision)
    ensures d == NotifySlots <==> available && CheckDatesInRange(dates, preferredRange, now)
    ensures d == UpdateWithDates <==> available && !CheckDatesInRange(dates, preferredRange, now)
    ensures d == UpdateNoSlots <==> !available
  {
    if available then
      if CheckDatesInRange(dates, preferredRange, now) then NotifySlots else UpdateWithDates
    else UpdateNoSlots
  }

  /** The message for a decision: an audible alert, or a silent update that
      carries the dates only in the out-of-range case. */
  function DecisionAction(chatId: int, d: Decision, dates: seq<string>, preferredRange: string): SlotAction {
    var rangeText := GetRangeText(preferredRange);
    match d
    case NotifySlots => Alert(chatId, SlotsFoundText(dates, rangeText), false)
    case UpdateWithDates => StatusUpdate(chatId, StatusText(dates, rangeText))
    case UpdateNoSlots => StatusUpdate(chatId, StatusText([], rangeText))
  }

  /** One round of the loop: the calendar it sees, the clock, the random draw
      of the delay, and whether `stop_monitoring` is called while it sleeps. */
  datatype Round = Round(calendar: Option<seq<Option<string>>>, now: int, draw: int, stopDuringSleep: bool)

  /** The action of one round, with the error notice the `except` clause
      evidently intends. */
  function RoundAction(chatId: int, preferredRange: string, r: Round): SlotAction {
    match CalendarResult(r.calendar)
    case CheckFailed(e) => ErrorNotice(chatId, e)
    case Checked(available, dates) =>
      DecisionAction(chatId, Decide(available, dates, preferredRange, r.now), dates, preferredRange)
  }

  /** A check whose dates are out of range always finds some dates, so the
      silent update it sends is the "dates NOT in range" text, and only an
      in-range (or empty, or `'any'`) result is ever audible. */
  lemma OutOfRangeUpdateNamesDates(chatId: int, preferredRange: string, r: Round)
    ensures RoundAction(chatId, preferredRange, r).Alert? ==>
      !RoundAction(chatId, preferredRange, r).disableNotification
    ensures var res := CalendarResult(r.calendar);
      res.Checked? && res.available && !CheckDatesInRange(res.dates, preferredRange, r.now) ==>
      res.dates != [] && preferredRange != "any"
      && RoundAction(chatId, preferredRange, r)
         == StatusUpdate(chatId, StatusText(res.dates, GetRangeText(preferredRange)))
      && StartsWith(RoundAction(chatId, preferredRange, r).text, StatusHeader + FoundDatesLabel)
  {
  }

  /** A calendar without usable dates sends the silent "no slots" update. */
  lemma EmptyCalendarIsSilent(chatId: int, preferredRange: string, r: Round)
    requires r.calendar.Some? && ActiveDates(r.calendar.value) == []
    ensures RoundAction(chatId, preferredRange, r).StatusUpdate?
    ensures !StartsWith(RoundAction(chatId, preferredRange, r).text, StatusHeader + FoundDatesLabel)
  {
  }

  // ---------------------------------------------------------------------------
  // start_monitoring

  /** The actions of a run, as intended: every round sends one message, an
      error included, and the loop goes on until a stop arrives. */
  function Run(chatId: int, preferredRange: string, rounds: seq<Round>): seq<SlotAction>
    decreases |rounds|
  {
    if rounds == [] then []
    else [RoundAction(chatId, preferredRange, rounds[0])]
         + (if rounds[0].stopDuringSleep then [] else Run(chatId, preferredRange, rounds[1..]))
  }

  /** The run as written: the first failed check makes the `except` clause
      raise, which ends `start_monitoring`. */
  function RunAsWritten(chatId: int, preferredRange: string, rounds: seq<Round>): (seq<SlotAction>, Option<string>)
    decreases |rounds|
  {
    if rounds == [] then ([], None)
    else if CalendarResult(rounds[0].calendar).CheckFailed? then ([], Some(NotifyErrorMissing))
    else if rounds[0].stopDuringSleep then ([RoundAction(chatId, preferredRange, rounds[0])], None)
    else
      var rest := RunAsWritten(chatId, preferredRange, rounds[1..]);
      ([RoundAction(chatId, preferredRange, rounds[0])] + rest.0, rest.1)
  }

  /** Without a stop there is no failure cap: every round is checked and
      answered, the failed ones with an error notice. */
  lemma {:induction false} RunHasNoFailureCap(chatId: int, preferredRange: string, rounds: seq<Round>)
    requires forall i :: 0 <= i < |rounds| ==> !rounds[i].stopDuringSleep
    ensures |Run(chatId, preferredRange, rounds)| == |rounds|
    ensures forall i :: 0 <= i < |rounds| && rounds[i].calendar.None? ==>
      Run(chatId, preferredRange, rounds)[i] == ErrorNotice(chatId, CalendarMissingError)
    decreases |rounds|
  {
    if rounds != [] {
      RunHasNoFailureCap(chatId, preferredRange, rounds[1..]);
      var tail := Run(chatId, preferredRange, rounds[1..]);
      assert Run(chatId, preferredRange, rounds) == [RoundAction(chatId, preferredRange, rounds[0])] + tail;
      forall i | 0 <= i < |rounds| && rounds[i].calendar.None?
        ensures Run(chatId, preferredRange, rounds)[i] == ErrorNotice(chatId, CalendarMissingError)
      {
        if i > 0 {
          assert rounds[1..][i - 1] == rounds[i];
        }
      }
    }
  }

  /** When no check fails, the code as written and the intended loop agree. */
  lemma {:induction false} AsWrittenAgreesWithoutErrors(chatId: int, preferredRange: string, rounds: seq<Round>)
    requires forall i :: 0 <= i < |rounds| ==> rounds[i].calendar.Some?
    ensures RunAsWritten(chatId, preferredRange, rounds) == (Run(chatId, preferredRange, rounds), None)
    decreases |rounds|
  {
    if rounds != [] {
      var a := RoundAction(chatId, preferredRange, rounds[0]);
      assert CalendarResult(rounds[0].calendar).Checked?;
      if !rounds[0].stopDuringSleep {
        assert forall i :: 0 <= i < |rounds[1..]| ==> rounds[1..][i] == rounds[i + 1];
        AsWrittenAgreesWithoutErrors(chatId, preferredRange, rounds[1..]);
        var rest := RunAsWritten(chatId, preferredRange, rounds[1..]);
        assert RunAsWritten(chatId, preferredRange, rounds) == ([a] + rest.0, rest.1);
        assert Run(chatId, preferredRange, rounds) == [a] + Run(chatId, preferredRange, rounds[1..]);
      } else {
        assert RunAsWritten(chatId, preferredRange, rounds) == ([a], None);
        assert [a] + [] == [a];
        assert Run(chatId, preferredRange, rounds) == [a];
      }
    }
  }

  /** One missing calendar ends the loop as written, where the intended loop
      reports it and checks again. */
  lemma AsWrittenStopsAtFirstError(chatId: int)
    ensures var rounds := [Round(None, 0, 0, false), Round(Some([]), 0, 0, false)];
      RunAsWritten(chatId, "any", rounds) == ([], Some(NotifyErrorMissing))
      && |Run(chatId, "any", rounds)| == 2
      && Run(chatId, "any", rounds)[0] == ErrorNotice(chatId, CalendarMissingError)
  {
    var rounds := [Round(None, 0, 0, false), Round(Some([]), 0, 0, false)];
    assert rounds[1..] == [Round(Some([]), 0, 0, false)];
  }

  /** `Run` from round `i` on: that round's action, then the rest unless a
      stop arrives. */
  lemma RunStep(chatId: int, preferredRange: string, rounds: seq<Round>, i: nat,
                done: seq<SlotAction>, action: SlotAction)
    requires i < |rounds| && action == RoundAction(chatId, preferredRange, rounds[i])
    requires Run(chatId, preferredRange, rounds) == done + Run(chatId, preferredRange, rounds[i..])
    ensures rounds[i].stopDuringSleep ==> Run(chatId, preferredRange, rounds) == done + [action]
    ensures !rounds[i].stopDuringSleep ==>
      Run(chatId, preferredRange, rounds) == (done + [action]) + Run(chatId, preferredRange, rounds[i + 1..])
  {
    assert rounds[i..][0] == rounds[i] && rounds[i..][1..] == rounds[i + 1..];
    assert Run(chatId, preferredRange, rounds[i..])
           == [action] + (if rounds[i].stopDuringSleep then [] else Run(chatId, preferredRange, rounds[i + 1..]));
    if rounds[i].stopDuringSleep {
      assert [action] + [] == [action];
    }
  }

  class SlotMonitor {
    /** `stop_event`. */
    var stopRequested: bool

    constructor ()
      ensures !stopRequested
    {
      stopRequested := false;
    }

    /** `stop_monitoring`. */
    method StopMonitoring()
      modifies this
      ensures stopRequested
    {
      stopRequested := true;
    }

    /** The body of the loop's `try`: one check and the message it leads to,
        with the error notice the `except` clause evidently intends. */
    method CheckRound(chatId: int, preferredRange: string, round: Round) returns (action: SlotAction)
      ensures action == RoundAction(chatId, preferredRange, round)
    {
      var result := CheckAvailability(round.calendar);
      match result {
        case CheckFailed(e) =>
          action := ErrorNotice(chatId, e);
        case Checked(available, dates) =>
          var d := Decide(available, dates, preferredRange, round.now);
          action := DecisionAction(chatId, d, dates, preferredRange);
      }
    }

    /** `start_monitoring` with the error notice sent and the loop going on.
        A stop that arrives during a round's sleep is seen at the next test of
        the loop condition. */
    method StartMonitoring(chatId: int, preferredRange: string, checkInterval: int, rounds: seq<Round>)
      returns (actions: seq<SlotAction>, delays: seq<int>)
      modifies this
      ensures actions == if old(stopRequested) then [] else Run(chatId, preferredRange, rounds)
      ensures |delays| == |actions|
      ensures forall i :: 0 <= i < |delays| ==>
        checkInterval - DelaySpread <= delays[i] <= checkInterval + DelaySpread
    {
      actions, delays := [], [];
      if stopRequested {
        return;
      }
      var i := 0;
      while !stopRequested && i < |rounds|
        invariant 0 <= i <= |rounds|
        invariant |delays| == |actions|
        invariant forall k :: 0 <= k < |delays| ==>
          checkInterval - DelaySpread <= delays[k] <= checkInterval + DelaySpread
        invariant !stopRequested ==> Run(chatId, preferredRange, rounds)
                                     == actions + Run(chatId, preferredRange, rounds[i..])
        invariant stopRequested ==> Run(chatId, preferredRange, rounds) == actions
        decreases |rounds| - i
      {
        var round := rounds[i];
        var action := CheckRound(chatId, preferredRange, round);
        RunStep(chatId, preferredRange, rounds, i, actions, action);
        actions := actions + [action];
        delays := delays + [GetRandomDelay(checkInterval, round.draw)];
        if round.stopDuringSleep {
          StopMonitoring();
        }
        i := i + 1;
      }
      if !stopRequested {
        assert rounds[i..] == [];
        assert actions + [] == actions;
      }
    }
  }
}
